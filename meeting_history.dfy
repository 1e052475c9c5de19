/** The meeting history page: the search and date-range filter over the archive, the
    filter dropdown's state, the transcript count and the month/day date badge. */
module MeetingHistory {
  import opened Strings
  import opened Seqs

  /** An archived meeting. `day` is the calendar date its `date` text names, counted in
      days from 1 January 1970. */
  datatype PastMeeting = PastMeeting(
    id: nat,
    title: string,
    date: string,
    day: int,
    category: string,
    hasRecording: bool,
    hasTranscript: bool)

  /** matchesSearch: the lower-cased term occurs in the lower-cased title or category. */
  predicate MatchesSearch(m: PastMeeting, term: string)
  {
    Contains(ToLower(m.title), ToLower(term)) || Contains(ToLower(m.category), ToLower(term))
  }

  const SecondsPerDay: int := 86400

  /** `new Date(meeting.date)`: a "Mon D, YYYY" text is read as midnight of that day in
      the browser's time zone. `utcOffset` is that zone's offset from UTC in seconds,
      east positive (UTC+8 is 28800), so local midnight comes utcOffset seconds before
      UTC midnight. Instants are seconds from the epoch. One offset serves every date,
      so a daylight-saving change between two dates is not modelled. */
  function MeetingInstant(m: PastMeeting, utcOffset: int): int
  {
    m.day * SecondsPerDay - utcOffset
  }

  /** `new Date(startDate)` and `new Date(endDate)`: the date field's "YYYY-MM-DD" value
      is a date-only ISO string, read as midnight UTC. */
  function BoundInstant(day: int): int
  {
    day * SecondsPerDay
  }

  /** matchesDate. A date input is None when its field is empty and otherwise holds the
      day it names; an empty pair lets every meeting through. The meeting's instant is
      compared with each bound's instant. */
  predicate MatchesDate(m: PastMeeting, startDate: Option<int>, endDate: Option<int>, utcOffset: int)
  {
    if startDate.None? && endDate.None? then true
    else
      var meetingDate := MeetingInstant(m, utcOffset);
      var afterStart := startDate.None? || meetingDate >= BoundInstant(startDate.value);
      afterStart && (endDate.None? || meetingDate <= BoundInstant(endDate.value))
  }

  function Keeps(searchTerm: string, startDate: Option<int>, endDate: Option<int>, utcOffset: int): PastMeeting -> bool
  {
    (m: PastMeeting) => MatchesSearch(m, searchTerm) && MatchesDate(m, startDate, endDate, utcOffset)
  }

  /** filteredHistory, in a browser whose time zone is utcOffset seconds east of UTC. */
  function FilteredHistory(history: seq<PastMeeting>, searchTerm: string, startDate: Option<int>, endDate: Option<int>,
                           utcOffset: int): seq<PastMeeting>
  {
    Filter(Keeps(searchTerm, startDate, endDate, utcOffset), history)
  }

  /** The result is exactly the meetings that pass both tests, and it lists them in the
      archive's order. */
  lemma FilteredHistoryExact(history: seq<PastMeeting>, searchTerm: string, startDate: Option<int>, endDate: Option<int>,
                             utcOffset: int)
    ensures forall m :: m in FilteredHistory(history, searchTerm, startDate, endDate, utcOffset) <==>
              m in history && MatchesSearch(m, searchTerm) && MatchesDate(m, startDate, endDate, utcOffset)
    ensures IsSubsequence(FilteredHistory(history, searchTerm, startDate, endDate, utcOffset), history)
    ensures forall m :: multiset(FilteredHistory(history, searchTerm, startDate, endDate, utcOffset))[m] ==
              if MatchesSearch(m, searchTerm) && MatchesDate(m, startDate, endDate, utcOffset)
              then multiset(history)[m] else 0
  {
    FilterMultiplicity(Keeps(searchTerm, startDate, endDate, utcOffset), history);
    var r := FilteredHistory(history, searchTerm, startDate, endDate, utcOffset);
    var p := Keeps(searchTerm, startDate, endDate, utcOffset);
    forall m | m in r ensures m in history && p(m) {
      var i :| 0 <= i < |r| && r[i] == m;
    }
    forall m | m in history && p(m) ensures m in r {
      var i :| 0 <= i < |history| && history[i] == m;
    }
  }

  /** A meeting is on or after the start day: strictly after it always, on it only when
      local midnight is not before UTC midnight, i.e. at or west of UTC. */
  predicate OnOrAfterStart(day: int, start: int, utcOffset: int)
  {
    start < day || (start == day && utcOffset <= 0)
  }

  /** A meeting is on or before the end day: strictly before it always, on it only at or
      east of UTC. */
  predicate OnOrBeforeEnd(day: int, end: int, utcOffset: int)
  {
    day < end || (day == end && utcOffset >= 0)
  }

  /** Comparing a local midnight with a UTC midnight, for an offset of less than a day. */
  lemma MidnightOrder(day: int, bound: int, utcOffset: int)
    requires -SecondsPerDay < utcOffset < SecondsPerDay
    ensures day * SecondsPerDay - utcOffset >= bound * SecondsPerDay <==> OnOrAfterStart(day, bound, utcOffset)
    ensures day * SecondsPerDay - utcOffset <= bound * SecondsPerDay <==> OnOrBeforeEnd(day, bound, utcOffset)
  {
    if day < bound {
      assert day * SecondsPerDay <= bound * SecondsPerDay - SecondsPerDay;
    } else if day > bound {
      assert day * SecondsPerDay >= bound * SecondsPerDay + SecondsPerDay;
    }
  }

  /** The date test in days, for every real time zone (all lie within a day of UTC):
      days strictly inside the range always pass and days outside never do; a meeting
      on the start day passes only at or west of UTC and one on the end day only at or
      east of UTC. No bounds let everything through. */
  lemma DateRangeByDays(m: PastMeeting, startDate: Option<int>, endDate: Option<int>, utcOffset: int)
    requires -SecondsPerDay < utcOffset < SecondsPerDay
    ensures startDate.None? && endDate.None? ==> MatchesDate(m, startDate, endDate, utcOffset)
    ensures startDate.Some? && endDate.None? ==>
              (MatchesDate(m, startDate, endDate, utcOffset) <==> OnOrAfterStart(m.day, startDate.value, utcOffset))
    ensures startDate.None? && endDate.Some? ==>
              (MatchesDate(m, startDate, endDate, utcOffset) <==> OnOrBeforeEnd(m.day, endDate.value, utcOffset))
    ensures startDate.Some? && endDate.Some? ==>
              (MatchesDate(m, startDate, endDate, utcOffset) <==>
                 OnOrAfterStart(m.day, startDate.value, utcOffset) && OnOrBeforeEnd(m.day, endDate.value, utcOffset))
  {
    if startDate.Some? {
      MidnightOrder(m.day, startDate.value, utcOffset);
    }
    if endDate.Some? {
      MidnightOrder(m.day, endDate.value, utcOffset);
    }
  }

  /** A meeting on the end day passes the end bound exactly at or east of UTC, and one
      on the start day passes the start bound exactly at or west of UTC. */
  lemma BoundDaysDependOnZone(m: PastMeeting, utcOffset: int)
    ensures MatchesDate(m, None, Some(m.day), utcOffset) <==> utcOffset >= 0
    ensures MatchesDate(m, Some(m.day), None, utcOffset) <==> utcOffset <= 0
  {
  }

  /** So a range is inclusive at both ends only at UTC itself: a one-day range shows the
      meetings of that day exactly when the offset is zero. */
  lemma InclusiveOnlyAtUtc(m: PastMeeting, utcOffset: int)
    ensures MatchesDate(m, Some(m.day), Some(m.day), utcOffset) <==> utcOffset == 0
  {
    BoundDaysDependOnZone(m, utcOffset);
  }

  /** The 24 October meeting under an end date of 2025-10-24: hidden at UTC-4, where
      it falls at 04:00 UTC, after the bound; shown at UTC+8. With that start date
      instead it is hidden at UTC+8, where it falls at 16:00 UTC the day before. */
  lemma SampleBoundDay()
    ensures HistoryData[0].day == 20385
    ensures !MatchesDate(HistoryData[0], None, Some(20385), -14400)
    ensures MatchesDate(HistoryData[0], None, Some(20385), 28800)
    ensures !MatchesDate(HistoryData[0], Some(20385), None, 28800)
  {
    BoundDaysDependOnZone(HistoryData[0], -14400);
    BoundDaysDependOnZone(HistoryData[0], 28800);
  }

  /** An empty search term and empty date fields show the whole archive. */
  lemma EmptyFiltersShowAll(history: seq<PastMeeting>, utcOffset: int)
    ensures FilteredHistory(history, "", None, None, utcOffset) == history
  {
    forall i | 0 <= i < |history| ensures Keeps("", None, None, utcOffset)(history[i]) {
      assert ToLower("") == "";
      ContainsEmpty(ToLower(history[i].title));
    }
    FilterAll(Keeps("", None, None, utcOffset), history);
  }

  /** The search ignores case: a term and its lower-cased form match the same meetings. */
  lemma SearchIgnoresCase(m: PastMeeting, term: string)
    ensures MatchesSearch(m, ToLower(term)) <==> MatchesSearch(m, term)
  {
    ToLowerIdempotent(term);
  }

  /** Any piece of a title, in any case, finds its meeting. */
  lemma TitlePieceMatches(m: PastMeeting, a: string, term: string, b: string)
    requires ToLower(m.title) == a + ToLower(term) + b
    ensures MatchesSearch(m, term)
  {
    ContainsInfix(a, ToLower(term), b);
  }

  /** The Transcripts card: how many archived meetings have a transcript. */
  function TranscriptCount(history: seq<PastMeeting>): nat
  {
    |Filter(WithTranscript(), history)|
  }

  function WithTranscript(): PastMeeting -> bool
  {
    (m: PastMeeting) => m.hasTranscript
  }

  /** Counting meeting by meeting, the independent reading of the card. */
  function CountTranscripts(history: seq<PastMeeting>): nat
  {
    if history == [] then 0 else (if history[0].hasTranscript then 1 else 0) + CountTranscripts(history[1..])
  }

  /** The card agrees with the count, and never exceeds the number of meetings. */
  lemma {:induction false} TranscriptCountAgrees(history: seq<PastMeeting>)
    ensures TranscriptCount(history) == CountTranscripts(history) <= |history|
  {
    if history != [] {
      TranscriptCountAgrees(history[1..]);
      var p := WithTranscript();
      assert Filter(p, history) == (if p(history[0]) then [history[0]] else []) + Filter(p, history[1..]);
    }
  }

  /** The date badge: the first word of the date, and the second word with its first
      comma removed. A date with no space has no second word; the page then fails, so
      the badge is None. */
  function DateBadge(date: string): Option<(string, string)>
  {
    var parts := Split(date, ' ');
    if |parts| < 2 then None else Some((parts[0], ReplaceFirst(parts[1], ',', "")))
  }

  /** A "Mon D, YYYY" date gives the badge (Mon, D). */
  lemma DateBadgeOfUsualDate(month: string, day: string, year: string)
    requires ' ' !in month && ' ' !in day && ',' !in day
    ensures DateBadge(month + " " + day + ", " + year) == Some((month, day))
  {
    var date := month + " " + day + ", " + year;
    assert date == month + [' '] + (day + [','] + [' '] + year);
    SplitFirst(month, ' ', day + [','] + [' '] + year);
    assert ' ' !in day + [','];
    SplitFirst(day + [','], ' ', year);
    var dc := day + [','];
    assert Split(dc + [' '] + year, ' ') == [dc] + Split(year, ' ');
    var parts := Split(date, ' ');
    assert parts == [month] + ([dc] + Split(year, ' '));
    assert parts[0] == month && parts[1] == dc;
    ReplaceFirstAt(day, ',', "", "");
    assert dc + "" == dc && day + "" + "" == day;
    assert ReplaceFirst(dc, ',', "") == day;
  }

  /** "Oct 24, 2025" shows OCT over 24. */
  lemma SampleDateBadge()
    ensures DateBadge("Oct 24, 2025") == Some(("Oct", "24"))
  {
    DateBadgeOfUsualDate("Oct", "24", "2025");
    assert "Oct" + " " + "24" + ", " + "2025" == "Oct 24, 2025";
  }

  /** A date without a space has no badge. */
  lemma DateBadgeNeedsSpace(date: string)
    requires ' ' !in date
    ensures DateBadge(date) == None
  {
    SplitNoSep(date, ' ');
  }

  /** The three archived sample meetings. */
  const HistoryData: seq<PastMeeting> := [
    PastMeeting(1, "Q4 Marketing Strategy Kickoff", "Oct 24, 2025", 20385, "Strategy", true, true),
    PastMeeting(2, "Client Check-in: Alpha Corp", "Oct 22, 2025", 20383, "Client", true, true),
    PastMeeting(3, "Weekly Design Sync", "Oct 20, 2025", 20381, "Team Sync", false, true)
  ]

  /** The sample archive has three transcripts. */
  lemma SampleTranscripts()
    ensures TranscriptCount(HistoryData) == 3
  {
    TranscriptCountAgrees(HistoryData);
    assert HistoryData[1..][1..][1..] == [];
  }

  /** The page's filter state. */
  class HistoryFilters {
    var searchTerm: string
    var showDateFilter: bool
    var startDate: Option<int>
    var endDate: Option<int>

    constructor ()
      ensures searchTerm == "" && !showDateFilter && startDate == None && endDate == None
    {
      searchTerm := "";
      showDateFilter := false;
      startDate := None;
      endDate := None;
    }

    /** The meetings listed under the current filters, in a browser utcOffset seconds
        east of UTC. */
    function Listed(history: seq<PastMeeting>, utcOffset: int): seq<PastMeeting>
      reads this
    {
      FilteredHistory(history, searchTerm, startDate, endDate, utcOffset)
    }

    /** The date button reads "Date Applied" while either bound is set. */
    function DateApplied(): bool
      reads this
    {
      startDate.Some? || endDate.Some?
    }

    /** Typing in the search box. */
    method SetSearchTerm(term: string)
      modifies this
      ensures searchTerm == term
      ensures showDateFilter == old(showDateFilter) && startDate == old(startDate) && endDate == old(endDate)
    {
      searchTerm := term;
    }

    /** The date button flips the dropdown. */
    method ToggleDateFilter()
      modifies this
      ensures showDateFilter == !old(showDateFilter)
      ensures searchTerm == old(searchTerm) && startDate == old(startDate) && endDate == old(endDate)
    {
      showDateFilter := !showDateFilter;
    }

    /** Editing the start date field (None when it is emptied). */
    method SetStartDate(d: Option<int>)
      modifies this
      ensures startDate == d
      ensures searchTerm == old(searchTerm) && showDateFilter == old(showDateFilter) && endDate == old(endDate)
    {
      startDate := d;
    }

    /** Editing the end date field (None when it is emptied). */
    method SetEndDate(d: Option<int>)
      modifies this
      ensures endDate == d
      ensures searchTerm == old(searchTerm) && showDateFilter == old(showDateFilter) && startDate == old(startDate)
    {
      endDate := d;
    }

    /** clearDateFilter: both dates emptied and the dropdown closed; the search term
        stays, so in every time zone the list is filtered by the search alone. */
    method ClearDateFilter(history: seq<PastMeeting>)
      modifies this
      ensures startDate == None && endDate == None && !showDateFilter && !DateApplied()
      ensures searchTerm == old(searchTerm)
      ensures forall utcOffset: int, m :: m in Listed(history, utcOffset) <==> m in history && MatchesSearch(m, searchTerm)
    {
      startDate := None;
      endDate := None;
      showDateFilter := false;
      forall utcOffset: int {
        FilteredHistoryExact(history, searchTerm, None, None, utcOffset);
      }
    }

    /** The empty result's "Clear all filters": the date filter is cleared and the
        search emptied, so the whole archive is listed again. */
    method ClearAllFilters(history: seq<PastMeeting>)
      modifies this
      ensures startDate == None && endDate == None && !showDateFilter && searchTerm == ""
      ensures forall utcOffset: int :: Listed(history, utcOffset) == history
    {
      ClearDateFilter(history);
      SetSearchTerm("");
      forall utcOffset: int {
        EmptyFiltersShowAll(history, utcOffset);
      }
    }

    /** Apply, or a press outside the dropdown, closes it and keeps the dates. */
    method CloseDateFilter()
      modifies this
      ensures !showDateFilter
      ensures searchTerm == old(searchTerm) && startDate == old(startDate) && endDate == old(endDate)
    {
      showDateFilter := false;
    }
  }
}
