/** The calendar page: the 35-cell month grid for December 2025, the events shown in
    each cell, the colour of each event type and the attendee field of the new-event
    form. */
module Calendar {
  import opened Strings
  import opened Seqs

  /** One cell of the month grid. */
  datatype DayCell = DayCell(day: nat, currentMonth: bool, date: string)

  /** A calendar event; only the fields the grid and the colours read. */
  datatype Event = Event(id: string, title: string, eventType: string, date: string)

  const DaysInMonth: nat := 31
  const GridSize: nat := 35
  const LeadingCell: DayCell := DayCell(30, false, "2025-11-30")
  const TodayDate: string := "2025-12-15"

  function MonthDate(i: nat): string { "2025-12-" + Pad2(i) }
  function NextMonthDate(i: nat): string { "2026-01-" + Pad2(i) }

  /** The number of cells: 35 unless the leading cell and the month alone exceed it. */
  function GridLength(daysInMonth: nat): nat
  {
    if 1 + daysInMonth >= GridSize then 1 + daysInMonth else GridSize
  }

  /** The cell the construction puts at position k. */
  function GridCell(daysInMonth: nat, k: nat): DayCell
  {
    if k == 0 then LeadingCell
    else if k <= daysInMonth then DayCell(k, true, MonthDate(k))
    else DayCell(k - daysInMonth, false, NextMonthDate(k - daysInMonth))
  }

  /** The whole grid, position by position. */
  function MonthGrid(daysInMonth: nat): seq<DayCell>
  {
    seq(GridLength(daysInMonth), k requires 0 <= k => GridCell(daysInMonth, k))
  }

  /** Pushing the cell that belongs at the next position keeps a prefix of the grid. */
  lemma AppendCell(cells: seq<DayCell>, daysInMonth: nat, c: DayCell)
    requires forall k :: 0 <= k < |cells| ==> cells[k] == GridCell(daysInMonth, k)
    requires c == GridCell(daysInMonth, |cells|)
    ensures forall k :: 0 <= k < |cells + [c]| ==> (cells + [c])[k] == GridCell(daysInMonth, k)
  {
  }

  /** The construction of calendarDays: push the leading November cell, one cell per
      day of the month, then January cells until there are 35. */
  method BuildCalendarDays(daysInMonth: nat) returns (calendarDays: seq<DayCell>)
    ensures calendarDays == MonthGrid(daysInMonth)
  {
    calendarDays := [LeadingCell];
    for i := 1 to daysInMonth + 1
      invariant |calendarDays| == i
      invariant forall k :: 0 <= k < i ==> calendarDays[k] == GridCell(daysInMonth, k)
    {
      var dateStr := "2025-12-" + Pad2(i);
      AppendCell(calendarDays, daysInMonth, DayCell(i, true, dateStr));
      calendarDays := calendarDays + [DayCell(i, true, dateStr)];
    }
    var remainingCells := GridSize - |calendarDays|;
    var i := 1;
    while i <= remainingCells
      invariant 1 <= i
      invariant remainingCells > 0 ==> i <= remainingCells + 1
      invariant remainingCells <= 0 ==> i == 1
      invariant |calendarDays| == 1 + daysInMonth + (i - 1)
      invariant forall k :: 0 <= k < |calendarDays| ==> calendarDays[k] == GridCell(daysInMonth, k)
    {
      var dateStr := "2026-01-" + Pad2(i);
      AppendCell(calendarDays, daysInMonth, DayCell(i, false, dateStr));
      calendarDays := calendarDays + [DayCell(i, false, dateStr)];
      i := i + 1;
    }
    assert |calendarDays| == GridLength(daysInMonth);
    assert forall k :: 0 <= k < |calendarDays| ==> calendarDays[k] == MonthGrid(daysInMonth)[k];
  }

  /** December 2025 as the page builds it. */
  method CalendarDays() returns (calendarDays: seq<DayCell>)
    ensures |calendarDays| == 35 && calendarDays == MonthGrid(DaysInMonth)
  {
    calendarDays := BuildCalendarDays(DaysInMonth);
  }

  /** The shape of the grid: 35 cells whenever the month fits; the leading cell is
      30 November; positions 1..daysInMonth are the month's days with zero-padded
      keys; the rest are the next month's days 1, 2, ... in order. */
  lemma MonthGridShape(daysInMonth: nat)
    ensures var g := MonthGrid(daysInMonth);
            (1 + daysInMonth <= 35 ==> |g| == 35)
            && |g| >= 1 + daysInMonth
            && g[0] == DayCell(30, false, "2025-11-30")
            && (forall i :: 1 <= i <= daysInMonth ==> g[i] == DayCell(i, true, "2025-12-" + Pad2(i)))
            && (forall j :: 1 <= j < |g| - daysInMonth ==>
                  g[daysInMonth + j] == DayCell(j, false, "2026-01-" + Pad2(j)))
  {
  }

  /** In December 2025 the grid ends with 1, 2 and 3 January. */
  lemma DecemberTrailingCells()
    ensures var g := MonthGrid(DaysInMonth);
            |g| == 35 && g[32].day == 1 && g[33].day == 2 && g[34].day == 3
            && forall k :: 32 <= k < 35 ==> !g[k].currentMonth
  {
  }

  /** Different days of the month get different date keys. */
  lemma MonthDatesDiffer(i: nat, j: nat)
    requires i != j
    ensures MonthDate(i) != MonthDate(j)
  {
    Pad2Value(i);
    Pad2Value(j);
    assert MonthDate(i)[8..] == Pad2(i);
    assert MonthDate(j)[8..] == Pad2(j);
  }

  /** Different days of the next month get different date keys. */
  lemma NextMonthDatesDiffer(i: nat, j: nat)
    requires i != j
    ensures NextMonthDate(i) != NextMonthDate(j)
  {
    Pad2Value(i);
    Pad2Value(j);
    assert NextMonthDate(i)[8..] == Pad2(i);
    assert NextMonthDate(j)[8..] == Pad2(j);
  }

  /** The year and month digits that tell the three kinds of key apart. */
  lemma DateKeyDigits(i: nat)
    ensures MonthDate(i)[3] == '5' && MonthDate(i)[6] == '2'
    ensures NextMonthDate(i)[3] == '6'
    ensures LeadingCell.date[3] == '5' && LeadingCell.date[6] == '1'
  {
    assert MonthDate(i)[3] == "2025-12-"[3];
    assert MonthDate(i)[6] == "2025-12-"[6];
    assert NextMonthDate(i)[3] == "2026-01-"[3];
  }

  /** The character at index 3 of a cell's key tells December 2025 (and November)
      from January 2026; the one at index 6 tells November from December. */
  lemma GridCellKind(daysInMonth: nat, k: nat)
    ensures GridCell(daysInMonth, k).date[3] == (if k <= daysInMonth then '5' else '6')
    ensures k <= daysInMonth ==> GridCell(daysInMonth, k).date[6] == (if k == 0 then '1' else '2')
  {
    if k == 0 {
      DateKeyDigits(0);
    } else if k <= daysInMonth {
      DateKeyDigits(k);
    } else {
      DateKeyDigits(k - daysInMonth);
    }
  }

  /** Strings that differ at some position differ. */
  lemma DifferAt(a: string, b: string, n: nat)
    requires n < |a| && n < |b| && a[n] != b[n]
    ensures a != b
  {
  }

  /** Two cells of different kinds (the leading cell, the month, the next month) carry
      different keys. */
  lemma KindsDiffer(daysInMonth: nat, i: nat, j: nat)
    requires i < j && (i == 0 || daysInMonth < j) && i <= daysInMonth
    ensures GridCell(daysInMonth, i).date != GridCell(daysInMonth, j).date
  {
    GridCellKind(daysInMonth, i);
    GridCellKind(daysInMonth, j);
    var a, b := GridCell(daysInMonth, i).date, GridCell(daysInMonth, j).date;
    if daysInMonth < j {
      DifferAt(a, b, 3);
    } else {
      DifferAt(a, b, 6);
    }
  }

  /** Two cells of the month carry different keys. */
  lemma MonthCellsDiffer(daysInMonth: nat, i: nat, j: nat)
    requires 0 < i < j <= daysInMonth
    ensures GridCell(daysInMonth, i).date != GridCell(daysInMonth, j).date
  {
    MonthDatesDiffer(i, j);
  }

  /** Two cells of the next month carry different keys. */
  lemma NextMonthCellsDiffer(daysInMonth: nat, i: nat, j: nat)
    requires daysInMonth < i < j
    ensures GridCell(daysInMonth, i).date != GridCell(daysInMonth, j).date
  {
    NextMonthDatesDiffer(i - daysInMonth, j - daysInMonth);
  }

  /** No two positions of a grid carry the same date key. */
  lemma GridCellDatesDistinct(daysInMonth: nat, i: nat, j: nat)
    requires i < j
    ensures GridCell(daysInMonth, i).date != GridCell(daysInMonth, j).date
  {
    if daysInMonth < i {
      NextMonthCellsDiffer(daysInMonth, i, j);
    } else if i > 0 && j <= daysInMonth {
      MonthCellsDiffer(daysInMonth, i, j);
    } else {
      KindsDiffer(daysInMonth, i, j);
    }
  }

  /** No two cells of a grid share a date key. */
  lemma MonthGridDatesDistinct(daysInMonth: nat, i: nat, j: nat)
    requires i < j < |MonthGrid(daysInMonth)|
    ensures MonthGrid(daysInMonth)[i].date != MonthGrid(daysInMonth)[j].date
  {
    GridCellDatesDistinct(daysInMonth, i, j);
  }

  /** The events a cell shows: those dated on the cell's date, in their original order. */
  function DayEvents(events: seq<Event>, date: string): seq<Event>
  {
    Filter((e: Event) => e.date == date, events)
  }

  /** A cell shows exactly the events with its date, as a subsequence of the list. */
  lemma DayEventsExact(events: seq<Event>, date: string)
    ensures forall e :: e in DayEvents(events, date) <==> e in events && e.date == date
    ensures IsSubsequence(DayEvents(events, date), events)
    ensures forall e :: multiset(DayEvents(events, date))[e] == if e.date == date then multiset(events)[e] else 0
  {
    var r := DayEvents(events, date);
    FilterMultiplicity((e: Event) => e.date == date, events);
    forall e | e in r ensures e in events && e.date == date {
      var i :| 0 <= i < |r| && r[i] == e;
    }
    forall e | e in events && e.date == date ensures e in r {
      var i :| 0 <= i < |events| && events[i] == e;
    }
  }

  /** An event dated on some grid cell is shown in that cell and in no other. */
  lemma EventInExactlyOneCell(events: seq<Event>, e: Event, daysInMonth: nat, k: nat, j: nat)
    requires e in events
    requires k < |MonthGrid(daysInMonth)| && j < |MonthGrid(daysInMonth)|
    requires e.date == MonthGrid(daysInMonth)[k].date
    ensures e in DayEvents(events, MonthGrid(daysInMonth)[j].date) <==> j == k
  {
    DayEventsExact(events, MonthGrid(daysInMonth)[j].date);
    if j < k {
      MonthGridDatesDistinct(daysInMonth, j, k);
    } else if k < j {
      MonthGridDatesDistinct(daysInMonth, k, j);
    }
  }

  /** A cell is highlighted as today when its date is 15 December 2025. */
  predicate IsToday(cell: DayCell)
  {
    cell.date == TodayDate
  }

  /** In the December grid exactly one cell, the one for the 15th, is today. */
  lemma TodayIsUnique(k: nat)
    requires k < |MonthGrid(DaysInMonth)|
    ensures IsToday(MonthGrid(DaysInMonth)[k]) <==> k == 15
  {
    assert MonthGrid(DaysInMonth)[k] == GridCell(DaysInMonth, k);
    assert GridCell(DaysInMonth, 15).date == TodayDate by {
      assert NatToString(15) == "15";
      assert Pad2(15) == "15";
    }
    if k < 15 {
      GridCellDatesDistinct(DaysInMonth, k, 15);
    } else if k > 15 {
      GridCellDatesDistinct(DaysInMonth, 15, k);
    }
  }

  const TeamStyle := "bg-pink-500 text-white border-pink-600"
  const ClientStyle := "bg-emerald-500 text-white border-emerald-600"
  const WorkStyle := "bg-blue-500 text-white border-blue-600"
  const PersonalStyle := "bg-violet-500 text-white border-violet-600"
  const DefaultEventStyle := "bg-gray-500 text-white border-gray-600"

  predicate IsKnownType(t: string)
  {
    t == "team" || t == "client" || t == "work" || t == "personal"
  }

  /** getEventStyles: each known type has its own colour; anything else is gray. */
  function EventStyles(t: string): (r: string)
    ensures r == DefaultEventStyle <==> !IsKnownType(t)
  {
    match t
    case "team" => TeamStyle
    case "client" => ClientStyle
    case "work" => WorkStyle
    case "personal" => PersonalStyle
    case _ => DefaultEventStyle
  }

  /** The four known types get four different event colours. */
  lemma EventStylesDistinct(t: string, u: string)
    requires IsKnownType(t) && IsKnownType(u) && t != u
    ensures EventStyles(t) != EventStyles(u)
  {
    EventStyleColor(t);
    EventStyleColor(u);
    ColorLettersDiffer(t, u);
    DifferAt(EventStyles(t), EventStyles(u), 3);
  }

  /** The first letter of the colour name of each known type's event style. */
  function ColorLetter(t: string): char
  {
    if t == "team" then 'p' else if t == "client" then 'e' else if t == "work" then 'b' else 'v'
  }

  lemma EventStyleColor(t: string)
    requires IsKnownType(t)
    ensures |EventStyles(t)| > 3 && EventStyles(t)[3] == ColorLetter(t)
  {
    assert TeamStyle[3] == 'p' && ClientStyle[3] == 'e' && WorkStyle[3] == 'b' && PersonalStyle[3] == 'v';
  }

  lemma BadgeStyleColor(t: string)
    requires IsKnownType(t)
    ensures |BadgeStyles(t)| > 3 && BadgeStyles(t)[3] == ColorLetter(t)
  {
    assert TeamBadge[3] == 'p' && ClientBadge[3] == 'e' && WorkBadge[3] == 'b' && PersonalBadge[3] == 'v';
  }

  /** Different known types have different colour letters. */
  lemma ColorLettersDiffer(t: string, u: string)
    requires IsKnownType(t) && IsKnownType(u) && t != u
    ensures ColorLetter(t) != ColorLetter(u)
  {
  }

  const TeamBadge := "bg-pink-100 text-pink-700" + " dark:bg-pink-900/30 dark:text-pink-300"
  const ClientBadge := "bg-emerald-100 text-emerald-700" + " dark:bg-emerald-900/30 dark:text-emerald-300"
  const WorkBadge := "bg-blue-100 text-blue-700" + " dark:bg-blue-900/30 dark:text-blue-300"
  const PersonalBadge := "bg-violet-100 text-violet-700" + " dark:bg-violet-900/30 dark:text-violet-300"
  const DefaultBadgeStyle := "bg-gray-100 text-gray-700"

  /** getBadgeStyles: the same four-way split with the lighter badge colours. */
  function BadgeStyles(t: string): (r: string)
    ensures r == DefaultBadgeStyle <==> !IsKnownType(t)
  {
    match t
    case "team" => TeamBadge
    case "client" => ClientBadge
    case "work" => WorkBadge
    case "personal" => PersonalBadge
    case _ => DefaultBadgeStyle
  }

  /** The four known types get four different badge colours. */
  lemma BadgeStylesDistinct(t: string, u: string)
    requires IsKnownType(t) && IsKnownType(u) && t != u
    ensures BadgeStyles(t) != BadgeStyles(u)
  {
    BadgeStyleColor(t);
    BadgeStyleColor(u);
    ColorLettersDiffer(t, u);
    DifferAt(BadgeStyles(t), BadgeStyles(u), 3);
  }

  /** The tag handleAddWorkspace writes for a workspace. */
  function WorkspaceTag(name: string): string
  {
    "[Workspace: " + name + "]"
  }

  /** The attendee text after adding a workspace: the old text is kept as a prefix, then
      ", " when it was non-empty, then the tag. */
  function WithWorkspace(prev: string, name: string): (r: string)
    ensures prev <= r
    ensures |r| == |prev| + (if prev == "" then 0 else 2) + |WorkspaceTag(name)|
    ensures r[|r| - |WorkspaceTag(name)|..] == WorkspaceTag(name)
    ensures prev != "" ==> r[|prev|..|prev| + 2] == ", "
  {
    var newEntry := WorkspaceTag(name);
    if prev != "" then prev + ", " + newEntry else newEntry
  }

  /** Two workspaces added to an empty field read "[Workspace: a], [Workspace: b]". */
  lemma AddTwoWorkspaces(a: string, b: string)
    ensures WithWorkspace(WithWorkspace("", a), b) == WorkspaceTag(a) + ", " + WorkspaceTag(b)
  {
  }

  /** The attendee field and the workspace dropdown of the new-event form. */
  class NewEventForm {
    var attendeeInput: string
    var showWorkspaceDropdown: bool

    constructor ()
      ensures attendeeInput == "" && !showWorkspaceDropdown
    {
      attendeeInput := "";
      showWorkspaceDropdown := false;
    }

    /** Typing in the attendee field replaces its text. */
    method EditAttendees(text: string)
      modifies this
      ensures attendeeInput == text && showWorkspaceDropdown == old(showWorkspaceDropdown)
    {
      attendeeInput := text;
    }

    /** The Building button toggles the dropdown. */
    method ToggleWorkspaceDropdown()
      modifies this
      ensures showWorkspaceDropdown == !old(showWorkspaceDropdown)
      ensures attendeeInput == old(attendeeInput)
    {
      showWorkspaceDropdown := !showWorkspaceDropdown;
    }

    /** A mouse press outside the dropdown closes it. */
    method PressOutside()
      modifies this
      ensures !showWorkspaceDropdown && attendeeInput == old(attendeeInput)
    {
      showWorkspaceDropdown := false;
    }

    /** handleAddWorkspace: append the workspace tag and close the dropdown. */
    method AddWorkspace(workspaceName: string)
      modifies this
      ensures attendeeInput == WithWorkspace(old(attendeeInput), workspaceName)
      ensures !showWorkspaceDropdown
    {
      var newEntry := WorkspaceTag(workspaceName);
      attendeeInput := if attendeeInput != "" then attendeeInput + ", " + newEntry else newEntry;
      showWorkspaceDropdown := false;
    }
  }
}
