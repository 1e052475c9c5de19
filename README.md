# Synthia page logic in Dafny

Synthia is a front-end mockup of a meeting and collaboration application. Its pages are
React components with hard-coded sample data and local view state. This project models
the logic inside those pages and proves what it does. Pure logic is written as Dafny
functions and proved with lemmas. State that the pages keep and update from click
handlers is a class per page, and each handler is a method that states the page's whole
new state. The pages modelled are:

- **App** (`app.dfy`): the header title chosen for a route; which routes render full
  screen without the sidebar and header; the start-up dark-mode decision.
- **Recording** (`recording.dfy`): the `HH:MM:SS` duration badge and the one-second
  timer with its pause toggle.
- **Calendar** (`calendar.dfy`): the 35-cell month grid for December 2025, built by
  two loops; the events each cell shows; the "today" cell; the event and badge colours
  per event type; adding a workspace tag to the attendee field.
- **MeetingSummaryDetail** (`meeting_summary_detail.dfy`): which meeting a route id
  shows; which tabs the meeting offers (conditional appends); resetting a vanished
  active tab to the summary tab; the per-role summary with its fallback text.
- **Tasks** (`tasks.dfy`): the status columns and the list view for the active
  category; the pending-approval section; the sidebar counts; the priority flag colours;
  the create-task priority picker.
- **MeetingHistory** (`meeting_history.dfy`): the search and the date-range filter,
  with meeting dates read as local midnight and bounds as UTC midnight; the filter dropdown's state; the transcript count; the month and day badge.
- **Collaboration** (`collaboration.dfy`): the team search; the "+n" member overflow
  badge; the four dialogs (join menu, join by link, join by code, create team) and the
  inputs they reset.
- **Space** (`space.dfy`): the ordered substring classifier for discussion badges;
  opening a discussion and going back to the list.
- **Dashboard** (`dashboard.dfy`): the status and priority badge colours; the briefing
  and task modals; the Escape key that closes both.

Two helper modules model the JavaScript built-ins these pages call:

- `strings.dfy` has ASCII `toLowerCase`, `includes`, `Number.toString` on naturals,
  `padStart`, `split` and single-character `replace`.
- `seqs.dfy` has `Array.prototype.filter`.

Tailwind class strings are treated as opaque tags that name a colour branch. A meeting
date is a day number counted from 1 January 1970. It is compared, as an instant, with
date-field bounds read as midnight UTC, through the browser's offset from UTC.

## Model

| member | source | states |
|---|---|---|
| Strings.ToLowerIdempotent | pages/MeetingHistory.tsx:88-90 | Lower-casing twice gives the same text as lower-casing once. |
| Strings.ContainsIffOccurs | pages/Space.tsx:89-92 | `includes` holds exactly when the word occurs at some index of the text. |
| Strings.PadStart | pages/Recording.tsx:26 | Padding gives the wider of the input and the width; the input is kept whole as the suffix; only fill characters come before it. It never truncates. |
| Strings.SplitJoin | pages/MeetingHistory.tsx:241 | Joining the parts of a split with the separator gives back the original string. |
| Strings.ReplaceFirstAt | pages/MeetingHistory.tsx:242 | A single-character `replace` changes only the first occurrence of that character. |
| Seqs.Filter | pages/Tasks.tsx:177-179 | `filter` keeps exactly the elements that pass the test, in their original order, and no more of them than there were. |
| Seqs.FilterMultiplicity | pages/Tasks.tsx:177-179 | `filter` keeps every copy of an element that passes the test and no copy of one that fails, so each passing element occurs as often as in the input. |
| Recording.FieldsRecombine | pages/Recording.tsx:23-25 | hours*3600 + minutes*60 + seconds is the input; minutes and seconds are below 60. |
| Recording.FormatTimeRoundTrip | pages/Recording.tsx:22-27 | Reading the badge back as three colon-separated decimal fields gives the original number of seconds. |
| Recording.FormatTimeInjective | pages/Recording.tsx:22-27 | Different durations never show the same badge. |
| Recording.ShowClockParses | pages/Recording.tsx:26 | Any hour count with two-digit-wide minutes and seconds reads back as h*3600 + m*60 + s. |
| Recording.ShowClockParts | pages/Recording.tsx:26 | The badge splits at its two colons into exactly the three padded fields. |
| Recording.MinutesSecondsTwoDigits | pages/Recording.tsx:24-26 | The last five characters are two digits, a colon and two digits; their values are the minutes and the seconds. |
| Recording.FormatTimeFixedWidth | pages/Recording.tsx:26 | Below 100 hours the badge is exactly 8 characters long, with ':' at positions 2 and 5. |
| Recording.HoursNeverTruncated | pages/Recording.tsx:23-26 | The hours field holds every decimal digit of the hour count, padded to at least two; 100 hours or more is never cut down. |
| Recording.InitialDisplay | pages/Recording.tsx:18 | The initial 134 seconds read "00:02:14". |
| Recording.RecordingTimer.constructor | pages/Recording.tsx:18-19 | The screen mounts at 134 seconds and not paused. |
| Recording.RecordingTimer.Tick | pages/Recording.tsx:30-38 | A tick adds exactly one second while running and changes nothing while paused. |
| Recording.RecordingTimer.TogglePause | pages/Recording.tsx:114 | The button flips the pause flag and keeps the duration. |
| App.ExactTitlesSeparate | App.tsx:58-74 | No route in the title table lies under "/meeting-summary/". None is titled "Meeting Details" or "Synthia". |
| App.PageTitleByTable | App.tsx:58-74 | The title is "Meeting Details" under the detail prefix, else the table's entry for the route, else "Synthia". |
| App.PageTitleClasses | App.tsx:58-74 | "Meeting Details" is shown exactly on detail routes. "Synthia" is shown exactly on routes that are neither detail routes nor in the table. |
| App.DetailRoutes | App.tsx:59 | Every route under the detail prefix, with any id, has the detail title. |
| App.SummaryListIsNotDetail | App.tsx:59-65 | "/meeting-summary" without the slash is the summary list, not a detail route. |
| App.LayoutFrame | App.tsx:30-48 | The page renders bare exactly on the full-screen routes; any other route gets a header whose title is the route's page title. |
| App.RecordingSubRoute | App.tsx:30-48 | "/recording" is full screen; "/recording/2" is not, so it gets a header titled "Synthia". |
| App.FamiliesAreFullScreen | App.tsx:35-39 | Every route under "/space" or "/workspace" is full screen. |
| App.RecordingTitleNeverShown | App.tsx:30-71 | No route puts the table's "Recording" title in a header, because its only route is full screen. |
| App.DarkModeRule | App.tsx:80-81 | A stored theme decides alone, and means dark only when it is "dark". Without a stored theme, the system preference decides. |
| Calendar.BuildCalendarDays | pages/Calendar.tsx:168-181 | The loops build exactly the specified grid: one leading November cell, the month's days, then January days up to 35 cells. |
| Calendar.CalendarDays | pages/Calendar.tsx:168-181 | December 2025 gives exactly 35 cells, equal to the specified grid. |
| Calendar.MonthGridShape | pages/Calendar.tsx:168-181 | The grid has 35 cells whenever the leading cell and the month fit in 35. Its first cell is 30 November. Day i of the month is at position i. The following cells are days 1, 2, … of January 2026. |
| Calendar.DecemberTrailingCells | pages/Calendar.tsx:177-181 | The December grid ends with the cells for 1, 2 and 3 January 2026. |
| Calendar.MonthDatesDiffer | pages/Calendar.tsx:173 | Different days of December get different date keys. |
| Calendar.NextMonthDatesDiffer | pages/Calendar.tsx:179 | Different days of January get different date keys. |
| Calendar.MonthGridDatesDistinct | pages/Calendar.tsx:168-181 | No two cells of a grid share a date key. |
| Calendar.DayEventsExact | pages/Calendar.tsx:263 | A cell shows exactly the events dated on its date, in list order, each as many times as the list holds it. |
| Calendar.EventInExactlyOneCell | pages/Calendar.tsx:262-263 | An event dated on a grid cell appears in that cell and in no other. |
| Calendar.TodayIsUnique | pages/Calendar.tsx:264 | In the December grid exactly one cell is highlighted as today: the one at position 15. |
| Calendar.EventStyles | pages/Calendar.tsx:147-155 | The gray event style is chosen exactly for types other than team, client, work and personal. |
| Calendar.EventStylesDistinct | pages/Calendar.tsx:147-155 | The four known types get four different event styles. |
| Calendar.BadgeStyles | pages/Calendar.tsx:157-165 | The gray badge style is chosen exactly for types other than the four known ones. |
| Calendar.BadgeStylesDistinct | pages/Calendar.tsx:157-165 | The four known types get four different badge styles. |
| Calendar.WithWorkspace | pages/Calendar.tsx:54-56 | Adding a workspace keeps the old attendee text as a prefix. A non-empty old text is followed by ", ". The text ends with the "[Workspace: name]" tag, and the length adds up. |
| Calendar.AddTwoWorkspaces | pages/Calendar.tsx:54-56 | Two workspaces added to an empty field read "[Workspace: a], [Workspace: b]". |
| Calendar.NewEventForm.constructor | pages/Calendar.tsx:30-31 | The attendee field starts empty with the dropdown closed. |
| Calendar.NewEventForm.EditAttendees | pages/Calendar.tsx:475 | Typing replaces the attendee text and leaves the dropdown alone. |
| Calendar.NewEventForm.ToggleWorkspaceDropdown | pages/Calendar.tsx:484 | The button flips the dropdown and keeps the text. |
| Calendar.NewEventForm.PressOutside | pages/Calendar.tsx:44-48 | A press outside closes the dropdown and keeps the text. |
| Calendar.NewEventForm.AddWorkspace | pages/Calendar.tsx:54-58 | Choosing a workspace appends its tag as specified by WithWorkspace and closes the dropdown. |
| MeetingSummaryDetail.LookupMeeting | pages/MeetingSummaryDetail.tsx:89-91 | The meeting shown is one of the table's meetings: the one stored under the id, or meeting "1" when the id is missing, empty or unknown. |
| MeetingSummaryDetail.MissingIdShowsDefault | pages/MeetingSummaryDetail.tsx:90 | A missing id and an empty id both show meeting "1". |
| MeetingSummaryDetail.BuildVisibleTabs | pages/MeetingSummaryDetail.tsx:94-121 | The conditional pushes build exactly the specified tab list. |
| MeetingSummaryDetail.BaseTabsFirst | pages/MeetingSummaryDetail.tsx:96-101 | Every meeting's tabs start with summary, for-you, actions and transcript, in that order. |
| MeetingSummaryDetail.VisibleTabsMembers | pages/MeetingSummaryDetail.tsx:94-121 | A tab is shown exactly when it is a base tab, or an optional tab whose list is non-empty. |
| MeetingSummaryDetail.VisibleTabsHave | pages/MeetingSummaryDetail.tsx:94-121 | The shown tabs carry an id exactly when a base tab carries it or it is the id of an optional tab whose list is non-empty. |
| MeetingSummaryDetail.OptionalTabIff | pages/MeetingSummaryDetail.tsx:104-118 | The files, attendance, chat and breakout tabs are each offered exactly when their list is non-empty. |
| MeetingSummaryDetail.TabOrderAndDistinct | pages/MeetingSummaryDetail.tsx:94-121 | The tabs follow the fixed order with no tab id twice. |
| MeetingSummaryDetail.FindTab | pages/MeetingSummaryDetail.tsx:125 | The search finds a tab exactly when one with the id is present, and returns the first such tab. |
| MeetingSummaryDetail.ResetTabVisible | pages/MeetingSummaryDetail.tsx:124-129 | After the safety check the active tab is one the meeting offers. A tab still offered is kept; any other becomes "summary". |
| MeetingSummaryDetail.ResetTabIdempotent | pages/MeetingSummaryDetail.tsx:124-129 | A second run of the safety check changes nothing. |
| MeetingSummaryDetail.CurrentRoleSummary | pages/MeetingSummaryDetail.tsx:131-134 | A role with an entry gets that entry. Any other role gets the fallback text with no points. |
| MeetingSummaryDetail.RoleMenuSummaries | pages/MeetingSummaryDetail.tsx:131-134 | Of the dropdown's three roles, meeting "1" has insights for "Lead Developer" and "UI/UX Designer" and falls back for "Project Manager"; meeting "2" has insights for "Lead Developer" only. |
| MeetingSummaryDetail.TableTabs | pages/MeetingSummaryDetail.tsx:94-121 | Meeting "1" of the page's table offers all eight tabs. Meeting "2" offers only the four base tabs. |
| MeetingSummaryDetail.SwitchingMeetings | pages/MeetingSummaryDetail.tsx:89-129 | An unknown id shows meeting "1". Moving to meeting "2" while on the chat tab resets the tab to "summary". |
| MeetingSummaryDetail.SummaryPage.constructor | pages/MeetingSummaryDetail.tsx:83-86 | The page opens on "summary", with role "Lead Developer" and the role dropdown closed. |
| MeetingSummaryDetail.SummaryPage.SelectTab | pages/MeetingSummaryDetail.tsx:174 | A tab click makes that tab active and changes nothing else. |
| MeetingSummaryDetail.SummaryPage.ChangeRoute | pages/MeetingSummaryDetail.tsx:83 | A new route id changes only the id. |
| MeetingSummaryDetail.SummaryPage.ToggleRoleDropdown | pages/MeetingSummaryDetail.tsx:270 | The role button flips the dropdown and changes nothing else. |
| MeetingSummaryDetail.SummaryPage.PickRole | pages/MeetingSummaryDetail.tsx:283 | Picking a role selects it and closes the dropdown. |
| MeetingSummaryDetail.SummaryPage.ResetActiveTab | pages/MeetingSummaryDetail.tsx:124-129 | The effect leaves an active tab that the shown meeting offers. The result is the one the reset rule specifies, and nothing else changes. |
| Tasks.FilterByStatusExact | pages/Tasks.tsx:177-179 | A column holds exactly the tasks with its status in the active category, in list order, each as many times as the list holds it. |
| Tasks.ListViewNoPending | pages/Tasks.tsx:526-527 | The list view never shows a task awaiting approval, nor a task of the other category. |
| Tasks.ListViewIsActiveTasks | pages/Tasks.tsx:526-527 | Up to order, the list view is exactly the active category's tasks that are not awaiting approval. |
| Tasks.NoActiveTasksIff | pages/Tasks.tsx:526-528 | "No active tasks found." appears exactly when every task of the active category awaits approval. |
| Tasks.CategoryCountsAddUp | pages/Tasks.tsx:435-439 | The personal and workspace counts add up to the number of tasks. |
| Tasks.FlagColor | pages/Tasks.tsx:73-120 | High, Medium and Low each get their own colour, red, orange and blue, and no other priority gets it. The other priority gets gray: "text-gray-300" on a board card and "text-gray-400" on a list row. |
| Tasks.FlagSurfacesAgree | pages/Tasks.tsx:116-120 | Board cards and list rows agree on every coloured priority; they differ only in the gray shade. |
| Tasks.FindPriority | pages/Tasks.tsx:339 | `find` returns the first entry with the id, and fails exactly when no entry has the id. |
| Tasks.CurrentPriorityRule | pages/Tasks.tsx:327-339 | P1 to P4 select their own entry; any other id falls back to "No Priority"; the initial P4 is "No Priority". |
| Tasks.SampleCategoryCounts | pages/Tasks.tsx:435-439 | The sample data gives 2 personal and 3 workspace tasks. |
| Tasks.SamplePending | pages/Tasks.tsx:181 | Two of the sample tasks await approval, in list order. |
| Tasks.SampleWorkspaceList | pages/Tasks.tsx:526-527 | The sample workspace list view holds only "API Integration". |
| Tasks.NoneOngoingOrCompleted | pages/Tasks.tsx:513-521 | On the sample data the ongoing and completed workspace columns are empty. |
| Tasks.TasksPage.constructor | pages/Tasks.tsx:134-140 | The page opens on the workspace category in list layout and the categories view, with nothing open. |
| Tasks.TasksPage.SelectCategory | pages/Tasks.tsx:433-437 | A category button selects it and the categories view, and changes nothing else. |
| Tasks.TasksPage.SelectSidebarView | pages/Tasks.tsx:446-449 | A view button changes only the sidebar view. |
| Tasks.TasksPage.SelectLayout | pages/Tasks.tsx:465-466 | The Board/List switch changes only the layout. |
| Tasks.TasksPage.OpenTask | pages/Tasks.tsx:493 | A click on a task opens it and changes nothing else. |
| Tasks.TasksPage.CloseTask | pages/Tasks.tsx:193-222 | Approve, the backdrop and the X buttons close the task and change nothing else. |
| Tasks.TasksPage.Reject | pages/Tasks.tsx:197-200 | Reject closes the task only when the user confirms. |
| Tasks.TasksPage.SetCreateTaskModal | pages/Tasks.tsx:470 | New Task opens the create dialog, and Cancel or the backdrop closes it; nothing else changes. |
| Tasks.TasksPage.ToggleLeftSidebar | pages/Tasks.tsx:456 | The menu button flips only the small-screen sidebar. |
| Tasks.CreateTaskForm.constructor | pages/Tasks.tsx:327-329 | The create dialog starts at P4, with the picker closed and no date. |
| Tasks.CreateTaskForm.TogglePriorityDropdown | pages/Tasks.tsx:382 | The priority button flips the picker and keeps the choice and the date. |
| Tasks.CreateTaskForm.PickPriority | pages/Tasks.tsx:393 | Picking an entry selects it and closes the picker. |
| Tasks.CreateTaskForm.PickDate | pages/Tasks.tsx:375 | The date input stores the date and keeps the rest. |
| MeetingHistory.FilteredHistoryExact | pages/MeetingHistory.tsx:86-105 | The list holds exactly the meetings that pass the search and the date test, in archive order, each as many times as the archive holds it. |
| MeetingHistory.MidnightOrder | pages/MeetingHistory.tsx:93-101 | For an offset under a day, a local midnight is on or after a UTC midnight exactly when its day is later, or the same day at or west of UTC; it is on or before one exactly when its day is earlier, or the same day at or east of UTC. |
| MeetingHistory.DateRangeByDays | pages/MeetingHistory.tsx:93-101 | In every real time zone, a meeting passes the dates exactly when its day is strictly inside the range, or on the start day at or west of UTC, or on the end day at or east of UTC; each bound alone restricts one side; no bounds let everything through. |
| MeetingHistory.BoundDaysDependOnZone | pages/MeetingHistory.tsx:93-101 | A meeting on the end day passes the end bound exactly when the offset is not negative, and one on the start day passes the start bound exactly when it is not positive. |
| MeetingHistory.InclusiveOnlyAtUtc | pages/MeetingHistory.tsx:93-101 | A one-day range shows that day's meetings exactly at UTC, so the range is inclusive at both ends only there. |
| MeetingHistory.SampleBoundDay | pages/MeetingHistory.tsx:95-100 | The 24 October meeting is hidden by an end date of 2025-10-24 at UTC-4 and shown at UTC+8, and a start date of 2025-10-24 hides it at UTC+8. |
| MeetingHistory.EmptyFiltersShowAll | pages/MeetingHistory.tsx:86-105 | An empty search and empty dates list the whole archive, in every time zone. |
| MeetingHistory.SearchIgnoresCase | pages/MeetingHistory.tsx:88-90 | A term and its lower-cased form match the same meetings. |
| MeetingHistory.TitlePieceMatches | pages/MeetingHistory.tsx:88-90 | Any piece of a title, in any case, finds the meeting. |
| MeetingHistory.TranscriptCountAgrees | pages/MeetingHistory.tsx:147 | The card equals a meeting-by-meeting count of transcripts and never exceeds the number of meetings. |
| MeetingHistory.DateBadgeOfUsualDate | pages/MeetingHistory.tsx:241-242 | A "Mon D, YYYY" date shows Mon over D. |
| MeetingHistory.SampleDateBadge | pages/MeetingHistory.tsx:241-242 | "Oct 24, 2025" shows "Oct" over "24". |
| MeetingHistory.DateBadgeNeedsSpace | pages/MeetingHistory.tsx:242 | A date with no space has no second word, so it has no badge. |
| MeetingHistory.SampleTranscripts | pages/MeetingHistory.tsx:147 | The sample archive has three transcripts. |
| MeetingHistory.HistoryFilters.constructor | pages/MeetingHistory.tsx:62-69 | The filters start empty with the dropdown closed. |
| MeetingHistory.HistoryFilters.SetSearchTerm | pages/MeetingHistory.tsx:162 | Typing changes only the search term. |
| MeetingHistory.HistoryFilters.ToggleDateFilter | pages/MeetingHistory.tsx:172 | The date button flips only the dropdown. |
| MeetingHistory.HistoryFilters.SetStartDate | pages/MeetingHistory.tsx:193 | Editing the start field changes only the start date. |
| MeetingHistory.HistoryFilters.SetEndDate | pages/MeetingHistory.tsx:202 | Editing the end field changes only the end date. |
| MeetingHistory.HistoryFilters.ClearDateFilter | pages/MeetingHistory.tsx:108 | Both dates are emptied, the dropdown closes and the label no longer reads "Date Applied". The search stays, so in every time zone the list is exactly the meetings matching the search. |
| MeetingHistory.HistoryFilters.ClearAllFilters | pages/MeetingHistory.tsx:318 | Clearing every filter lists the whole archive again, in every time zone. |
| MeetingHistory.HistoryFilters.CloseDateFilter | pages/MeetingHistory.tsx:208 | Apply closes the dropdown and keeps the dates. |
| Collaboration.FilteredTeamsExact | pages/Collaboration.tsx:75-77 | The grid shows exactly the teams whose lower-cased name contains the lower-cased query, in order, each as many times as the list holds it. |
| Collaboration.EmptyQueryListsAll | pages/Collaboration.tsx:75-77 | An empty query lists every team. |
| Collaboration.QueryIgnoresCase | pages/Collaboration.tsx:75-77 | A query and its lower-cased form list the same teams. |
| Collaboration.OverflowCount | pages/Collaboration.tsx:194 | The badge plus the shown avatars is the member total; the badge is negative exactly when more avatars are listed than members. |
| Collaboration.SampleOverflow | pages/Collaboration.tsx:194 | The sample cards read +5, +8 and +3. |
| Collaboration.CollaborationPage.constructor | pages/Collaboration.tsx:61-72 | All dialogs start closed and all inputs empty. |
| Collaboration.CollaborationPage.SetSearchQuery | pages/Collaboration.tsx:95 | Typing changes only the query. |
| Collaboration.CollaborationPage.OpenJoinDialog | pages/Collaboration.tsx:100 | New Team opens only the join menu. |
| Collaboration.CollaborationPage.CreateWorkspaceCard | pages/Collaboration.tsx:144 | The create card opens only the create dialog. |
| Collaboration.CollaborationPage.CloseJoinDialog | pages/Collaboration.tsx:224 | The menu's close button leaves every dialog closed. |
| Collaboration.CollaborationPage.ChooseCreate | pages/Collaboration.tsx:233-237 | The menu closes and only the create dialog is open. |
| Collaboration.CollaborationPage.ChooseLink | pages/Collaboration.tsx:251-255 | The menu closes and only the link dialog is open. |
| Collaboration.CollaborationPage.ChooseCode | pages/Collaboration.tsx:269-273 | The menu closes and only the code dialog is open. |
| Collaboration.CollaborationPage.EditInviteLink | pages/Collaboration.tsx:311 | Typing changes only the link. |
| Collaboration.CollaborationPage.CloseLinkDialog | pages/Collaboration.tsx:297-318 | X and Back close the link dialog and keep the typed link. |
| Collaboration.CollaborationPage.JoinByLink | pages/Collaboration.tsx:323-327 | Join closes the link dialog and clears the link, and nothing else. |
| Collaboration.CollaborationPage.EditInviteCode | pages/Collaboration.tsx:359 | Typing changes only the code. |
| Collaboration.CollaborationPage.CloseCodeDialog | pages/Collaboration.tsx:345-366 | X and Back close the code dialog and keep the typed code. |
| Collaboration.CollaborationPage.JoinByCode | pages/Collaboration.tsx:371-375 | Join closes the code dialog and clears the code, and nothing else. |
| Collaboration.CollaborationPage.SetTeamLogo | pages/Collaboration.tsx:412 | The file input sets or clears only the logo. |
| Collaboration.CollaborationPage.SetTeamName | pages/Collaboration.tsx:429 | Typing changes only the team name. |
| Collaboration.CollaborationPage.SetTeamDescription | pages/Collaboration.tsx:440 | Typing changes only the description. |
| Collaboration.CollaborationPage.CloseCreateDialog | pages/Collaboration.tsx:393-447 | X and Cancel close the create dialog and keep its inputs. |
| Collaboration.CollaborationPage.CreateTeam | pages/Collaboration.tsx:452-457 | Create closes the dialog and resets name, description and logo; the invite fields and the query stay. |
| Collaboration.JoinByLinkSession | pages/Collaboration.tsx:100-327 | Menu, Link, typing, Join: everything ends closed with the link cleared and the query untouched. |
| Space.BadgeColor | pages/Space.tsx:88-94 | First match wins among "Meeting", "BREAKOUT", "Discussion" and "Question", each an iff; gray exactly when none occurs. |
| Space.MeetingBeatsQuestion | pages/Space.tsx:88-94 | A type naming both a meeting and a question is blue. |
| Space.BreakoutRoomsArePurple | pages/Space.tsx:89-90 | "BREAKOUT ROOM: team" is purple unless the team's own name contains "Meeting". |
| Space.NoMeetingInBreakout | pages/Space.tsx:89 | "Meeting" occurs in "BREAKOUT ROOM: team" exactly when it occurs in the team's name. |
| Space.SampleMeetingBadge | pages/Space.tsx:88-94 | The sample "Meeting" type is blue. |
| Space.SampleBreakoutBadge | pages/Space.tsx:88-94 | The sample "BREAKOUT ROOM: Design Team" type is purple. |
| Space.SampleDiscussionBadge | pages/Space.tsx:88-94 | The sample "Discussion" type is green. |
| Space.SampleQuestionBadge | pages/Space.tsx:88-94 | The sample "Question" type is orange. |
| Space.LowerCaseBreakoutIsGray | pages/Space.tsx:88-94 | The test is case sensitive: "breakout" alone is gray. |
| Space.SpaceView.constructor | pages/Space.tsx:20-24 | The page starts on discussions and summary, with nothing selected, the list shown and the general space chosen. |
| Space.SpaceView.ExactlyOnePane | pages/Space.tsx:180-239 | While the view flag matches the selection, exactly one of the list and the discussion pane is rendered. |
| Space.SpaceView.OpenDiscussion | pages/Space.tsx:77-81 | Opening selects the discussion, shows it on "summary" and hides the top chrome; the other fields stay. |
| Space.SpaceView.BackToDiscussions | pages/Space.tsx:83-86 | Back hides the view and drops the selection; the tabs stay. |
| Space.SpaceView.SelectTab | pages/Space.tsx:161 | A top tab changes only the active tab. |
| Space.SpaceView.SelectDiscussionTab | pages/Space.tsx:282 | A discussion tab changes only the discussion tab. |
| Space.OpenThenBack | pages/Space.tsx:77-86 | Open then Back returns to the list on the same top tab, with nothing selected. |
| Dashboard.BadgeColorsDistinct | pages/Dashboard.tsx:67-80 | The blue, green, yellow, red, orange and gray badges are all different. |
| Dashboard.StatusColor | pages/Dashboard.tsx:67-74 | "In Progress", "Completed" and "Pending" each get their own colour, each an iff; gray exactly for any other status. |
| Dashboard.StatusMatchIsExact | pages/Dashboard.tsx:68-73 | The status match is exact: "completed" and "In progress" are gray. |
| Dashboard.PriorityColor | pages/Dashboard.tsx:76-80 | Red exactly when "High" occurs; orange exactly when "Medium" occurs without "High"; gray otherwise. |
| Dashboard.HighBeatsMedium | pages/Dashboard.tsx:77 | A priority naming both Medium and High is red. |
| Dashboard.HighLabelIsRed | pages/Dashboard.tsx:77 | "High Priority" is red. |
| Dashboard.MediumLabelIsOrange | pages/Dashboard.tsx:78 | "Medium Priority" is orange. |
| Dashboard.LowLabelIsGray | pages/Dashboard.tsx:79 | "Low Priority" is gray. |
| Dashboard.SampleTaskBadges | pages/Dashboard.tsx:170-177 | The two sample cards read blue and green, both with a red priority. |
| Dashboard.DashboardModals.constructor | pages/Dashboard.tsx:20-21 | Both modals start closed. |
| Dashboard.DashboardModals.OpenBriefing | pages/Dashboard.tsx:138 | The briefing buttons open the briefing and keep the task modal as it was. |
| Dashboard.DashboardModals.CloseBriefing | pages/Dashboard.tsx:340-355 | The backdrop and the close button close only the briefing. |
| Dashboard.DashboardModals.OpenTask | pages/Dashboard.tsx:183 | A task's button opens that task and keeps the briefing as it was. |
| Dashboard.DashboardModals.CloseTask | pages/Dashboard.tsx:469 | The task backdrop closes only the task modal. |
| Dashboard.DashboardModals.HandleKey | pages/Dashboard.tsx:57-62 | Escape closes both modals; any other key changes nothing. |
| Dashboard.EscapeAfterOpening | pages/Dashboard.tsx:57-62 | Whichever modals were opened, one Escape leaves none open. |

## Left out

- Routing is not part of this model. That covers `useNavigate`, the router, the 404 redirect and the sidebar's active links: they are library behaviour. Route ids and paths are plain parameters.
- DOM side effects are left out. That covers the body scroll lock, listener registration, custom window events and writes to the `dark` class. Only the state changes they cause are modelled, and `DashboardModals.AnyModalOpen` names the scroll-lock condition.
- The `setInterval` schedule of the recording timer is left out. One tick is one method call.
- `localStorage` and `matchMedia` are not read. Their answers are parameters of `App.IsDark`.
- `new Date(...)` parsing is modelled by its result only. A meeting date is given as its day number counted from 1 January 1970, and its text is not parsed. The browser's offset from UTC is the parameter `utcOffset`, in seconds east of UTC. One offset stands for every meeting date, so a daylight-saving change between two dates is ignored: in such a zone the page reads each date with the offset in force on that day. A date field is None when empty. `toLocaleDateString` is left out: it is locale code.
- `Math.random` waveform heights are left out: they are randomness and only presentational.
- `window.alert` is left out. `window.confirm` is the boolean parameter of `Tasks.TasksPage.Reject`.
- `pages/Workspace.tsx`, `components/Sidebar.tsx` and `data/meetingFiles.ts` are not part of this model. They hold static markup and mock records without logic.
- JSX rendering, icons and styling are left out. The colour strings are tags that identify a branch.
- Calendar's view switch, selected-event popup and new-event modal flags are left out: they are plain setters with no logic.
- Task editing inside the detail dialog (`isEditing`, title and description drafts) is left out: the edits never leave the dialog.
- Recording.FormatTime is modelled on naturals only. The duration starts at 134 and only grows, so negative inputs never reach it.
- Calendar.MonthGrid takes the month length as a parameter; the page always uses 31.
- MeetingSummaryDetail.LookupMeeting requires meeting "1" to be in the table. The page's constant table always has it.
- MeetingSummaryDetail.LookupMeeting looks ids up in the table's own keys only. The page indexes a plain object, so an id naming an inherited `Object.prototype` member (`constructor`, `toString`, `hasOwnProperty`, `__proto__`) finds that member instead of falling back to meeting "1". The page then renders an empty meeting or throws. The model sends such ids to meeting "1" like any other unknown id.
- MeetingSummaryDetail.Meeting holds the optional lists as sequences. A list the record lacks is empty, which is how the page's `meetingData.files && meetingData.files.length > 0` tests treat it.
- Collaboration.CollaborationPage's handlers require that their button is on screen. The dialogs are modal overlays, so the page's buttons can only be pressed while no dialog is shown, and a dialog's buttons only while that dialog is. The same goes for the create-team inputs and the invite fields.
- MeetingHistory.DateBadge returns None for a date with no space. The page would throw a TypeError there, calling `replace` on `undefined`.
- Strings.ToLower lower-cases ASCII letters only; JavaScript's `toLowerCase` also folds non-ASCII letters.
