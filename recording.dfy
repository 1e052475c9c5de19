/** The recording screen: the HH:MM:SS duration badge and the one-second timer that
    advances it while recording is not paused. */
module Recording {
  import opened Strings

  /** The three clock fields formatTime computes with floor division and remainder. */
  function Hours(totalSeconds: nat): nat { totalSeconds / 3600 }
  function Minutes(totalSeconds: nat): nat { (totalSeconds % 3600) / 60 }
  function Seconds(totalSeconds: nat): nat { totalSeconds % 60 }

  /** The badge text for given clock fields: each printed in decimal and left-padded
      with '0' to two places, joined by ':'. */
  function ShowClock(h: nat, m: nat, s: nat): string
  {
    Pad2(h) + ":" + Pad2(m) + ":" + Pad2(s)
  }

  /** formatTime. */
  function FormatTime(totalSeconds: nat): string
  {
    ShowClock(Hours(totalSeconds), Minutes(totalSeconds), Seconds(totalSeconds))
  }

  /** The fields recombine to the input, and minutes and seconds stay below 60. */
  lemma FieldsRecombine(totalSeconds: nat)
    ensures Hours(totalSeconds) * 3600 + Minutes(totalSeconds) * 60 + Seconds(totalSeconds) == totalSeconds
    ensures Minutes(totalSeconds) < 60 && Seconds(totalSeconds) < 60
  {
  }

  /** Reads an "H:MM:SS" display back: three ':'-separated decimal fields, the last two of
      exactly two digits. */
  function ParseTime(s: string): Option<nat>
  {
    ParseFields(Split(s, ':'))
  }

  /** The value of the three fields, when they are well formed. */
  function ParseFields(parts: seq<string>): Option<nat>
  {
    if |parts| == 3 && |parts[0]| >= 1 && |parts[1]| == 2 && |parts[2]| == 2
       && AllDigits(parts[0]) && AllDigits(parts[1]) && AllDigits(parts[2])
    then Some(DecimalValue(parts[0]) * 3600 + DecimalValue(parts[1]) * 60 + DecimalValue(parts[2]))
    else None
  }

  lemma DigitsHaveNoColon(s: string)
    requires AllDigits(s)
    ensures ':' !in s
  {
    forall i | 0 <= i < |s| ensures s[i] != ':' {
      assert IsDigit(s[i]);
    }
  }

  /** Three colon-free fields joined by ':' split back into those fields. */
  lemma {:induction false} ColonJoinSplits(a: string, b: string, c: string)
    requires ':' !in a && ':' !in b && ':' !in c
    ensures Split(a + ":" + b + ":" + c, ':') == [a, b, c]
  {
    assert a + ":" + b + ":" + c == a + [':'] + (b + [':'] + c);
    SplitFirst(a, ':', b + [':'] + c);
    SplitFirst(b, ':', c);
    SplitNoSep(c, ':');
  }

  /** A clock display splits at its two colons into the three padded fields. */
  lemma ShowClockParts(h: nat, m: nat, s: nat)
    ensures Split(ShowClock(h, m, s), ':') == [Pad2(h), Pad2(m), Pad2(s)]
  {
    var ph, pm, ps := Pad2(h), Pad2(m), Pad2(s);
    Pad2Value(h);
    Pad2Value(m);
    Pad2Value(s);
    DigitsHaveNoColon(ph);
    DigitsHaveNoColon(pm);
    DigitsHaveNoColon(ps);
    ColonJoinSplits(ph, pm, ps);
  }

  /** Three well-formed fields read as the value their digits spell. */
  lemma FieldsValue(parts: seq<string>, a: string, b: string, c: string, h: nat, m: nat, s: nat)
    requires parts == [a, b, c]
    requires |a| >= 1 && |b| == 2 && |c| == 2 && AllDigits(a) && AllDigits(b) && AllDigits(c)
    requires DecimalValue(a) == h && DecimalValue(b) == m && DecimalValue(c) == s
    ensures ParseFields(parts) == Some(h * 3600 + m * 60 + s)
  {
    assert parts[0] == a && parts[1] == b && parts[2] == c;
  }

  /** Reading a clock display back gives h*3600 + m*60 + s, for two-digit-wide m and s. */
  lemma ShowClockParses(h: nat, m: nat, s: nat)
    requires m < 100 && s < 100
    ensures ParseTime(ShowClock(h, m, s)) == Some(h * 3600 + m * 60 + s)
  {
    ShowClockParts(h, m, s);
    Pad2Value(h);
    Pad2Value(m);
    Pad2Value(s);
    FieldsValue(Split(ShowClock(h, m, s), ':'), Pad2(h), Pad2(m), Pad2(s), h, m, s);
  }

  /** Round trip: parsing the display gives back the number of seconds. */
  lemma FormatTimeRoundTrip(totalSeconds: nat)
    ensures ParseTime(FormatTime(totalSeconds)) == Some(totalSeconds)
  {
    FieldsRecombine(totalSeconds);
    ShowClockParses(Hours(totalSeconds), Minutes(totalSeconds), Seconds(totalSeconds));
  }

  /** Different durations never show the same badge. */
  lemma FormatTimeInjective(a: nat, b: nat)
    requires FormatTime(a) == FormatTime(b)
    ensures a == b
  {
    FormatTimeRoundTrip(a);
    FormatTimeRoundTrip(b);
  }

  /** Where the pieces of a "A:BB:CC" string sit. */
  lemma ColonJoinLayout(a: string, b: string, c: string)
    requires |b| == 2 && |c| == 2
    ensures var r := a + ":" + b + ":" + c;
            |r| == |a| + 6 && r[..|r| - 6] == a
            && r[|r| - 6] == ':' && r[|r| - 3] == ':'
            && r[|r| - 5..|r| - 3] == b && r[|r| - 2..] == c
  {
  }

  /** Layout of a clock display: the hours field, then ':', two digits, ':', two digits. */
  lemma ShowClockLayout(h: nat, m: nat, s: nat)
    requires m < 100 && s < 100
    ensures var r := ShowClock(h, m, s);
            |r| == |Pad2(h)| + 6 && r[..|r| - 6] == Pad2(h)
            && r[|r| - 6] == ':' && r[|r| - 3] == ':'
            && r[|r| - 5..|r| - 3] == Pad2(m) && r[|r| - 2..] == Pad2(s)
  {
    var a, b, c := Pad2(h), Pad2(m), Pad2(s);
    Pad2Value(m);
    Pad2Value(s);
    assert |b| == 2 && |c| == 2;
    ColonJoinLayout(a, b, c);
    assert ShowClock(h, m, s) == a + ":" + b + ":" + c;
  }

  /** Minutes and seconds are always printed as exactly two digits whose values are the
      fields, both below 60, after the last two colons. */
  lemma MinutesSecondsTwoDigits(totalSeconds: nat)
    ensures var r := FormatTime(totalSeconds);
            |r| >= 8 && r[|r| - 6] == ':' && r[|r| - 3] == ':'
            && AllDigits(r[|r| - 5..|r| - 3]) && AllDigits(r[|r| - 2..])
            && DecimalValue(r[|r| - 5..|r| - 3]) == Minutes(totalSeconds) < 60
            && DecimalValue(r[|r| - 2..]) == Seconds(totalSeconds) < 60
  {
    var h, m, s := Hours(totalSeconds), Minutes(totalSeconds), Seconds(totalSeconds);
    FieldsRecombine(totalSeconds);
    ShowClockLayout(h, m, s);
    Pad2Value(h);
    Pad2Value(m);
    Pad2Value(s);
    var r := FormatTime(totalSeconds);
    assert r == ShowClock(h, m, s);
    assert r[|r| - 5..|r| - 3] == Pad2(m) && r[|r| - 2..] == Pad2(s);
  }

  /** Below 100 hours the badge is exactly "HH:MM:SS": eight characters, colons at 2 and 5. */
  lemma FormatTimeFixedWidth(totalSeconds: nat)
    requires totalSeconds < 360000
    ensures var r := FormatTime(totalSeconds);
            |r| == 8 && r[2] == ':' && r[5] == ':'
  {
    FieldsRecombine(totalSeconds);
    assert Hours(totalSeconds) < 100;
    Pad2Value(Hours(totalSeconds));
    ShowClockLayout(Hours(totalSeconds), Minutes(totalSeconds), Seconds(totalSeconds));
  }

  /** Padding never truncates: the hours field is the full decimal hour count, with one
      leading '0' only when that count has a single digit. */
  lemma HoursNeverTruncated(totalSeconds: nat)
    ensures var r := FormatTime(totalSeconds);
            var d := NatToString(Hours(totalSeconds));
            |r| >= 8 && r[..|r| - 6] == (if |d| == 1 then "0" + d else d)
  {
    var h, m, s := Hours(totalSeconds), Minutes(totalSeconds), Seconds(totalSeconds);
    FieldsRecombine(totalSeconds);
    ShowClockLayout(h, m, s);
    Pad2Value(h);
    var r := FormatTime(totalSeconds);
    assert r == ShowClock(h, m, s);
    Pad2Shape(h);
  }

  /** The initial duration of 134 seconds is shown as "00:02:14". */
  lemma InitialDisplay()
    ensures FormatTime(134) == "00:02:14"
  {
    assert Hours(134) == 0 && Minutes(134) == 2 && Seconds(134) == 14;
    assert Repeat('0', 1) == "0";
    assert Pad2(0) == "00";
    assert Pad2(2) == "02";
    assert NatToString(14) == "14";
    assert Pad2(14) == "14";
  }

  /** The recording screen's timer state: the elapsed duration and the pause flag. */
  class RecordingTimer {
    var duration: nat
    var isPaused: bool

    /** Mounting starts at 134 seconds, not paused. */
    constructor ()
      ensures duration == 134 && !isPaused
    {
      duration := 134;
      isPaused := false;
    }

    /** The badge text for the current duration. */
    function Display(): string
      reads this
    {
      FormatTime(duration)
    }

    /** One interval tick: the interval only runs while not paused, and adds one second. */
    method Tick()
      modifies this
      ensures isPaused == old(isPaused)
      ensures duration == if old(isPaused) then old(duration) else old(duration) + 1
    {
      if !isPaused {
        duration := duration + 1;
      }
    }

    /** The pause/resume button flips the flag and leaves the duration alone. */
    method TogglePause()
      modifies this
      ensures isPaused == !old(isPaused)
      ensures duration == old(duration)
    {
      isPaused := !isPaused;
    }
  }
}
