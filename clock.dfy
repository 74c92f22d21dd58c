/**
 * Dates, times of day and time controls as a CSA record writes them in its
 * `$START_TIME:`, `$END_TIME:` and `$TIME_LIMIT:` lines, and the
 * `GameAttribute` wrapper that renders any of them.  Durations are whole
 * seconds: `Duration::as_secs` truncates, and only `as_secs` is ever used.
 */
module Clock {
  import opened Wrappers
  import opened Decimal
  import opened Text

  // ----------------------------------------------------------------- Time

  /** A calendar date as its fields; the year is signed, as in the `time`
      crate.  Calendar validity is not part of the model. */
  datatype Date = Date(year: int, month: U8, day: U8)

  datatype TimeOfDay = TimeOfDay(hour: U8, minute: U8, second: U8)

  datatype Time = Time(date: Date, time: Option<TimeOfDay>)

  /** Year as is, month and day zero-padded to two digits. */
  function DateText(d: Date): (s: string)
    ensures NoNewline(s) && 5 <= |s|
    ensures d.month < 100 && d.day < 100 ==>
              |s| == |IntToString(d.year)| + 6 && s[|s| - 6] == '/' && s[|s| - 3] == '/'
  {
    var y, m, dd := IntToString(d.year), Pad2(d.month), Pad2(d.day);
    assert NoNewline(y) by {
      if d.year < 0 {
        DigitsOnOneLine(y[1..]);
        assert forall i :: 1 <= i < |y| ==> y[i] == y[1..][i - 1];
      } else {
        DigitsOnOneLine(y);
      }
    }
    DigitsOnOneLine(m);
    DigitsOnOneLine(dd);
    NoNewlineAppend3(y, "/", m);
    NoNewlineAppend3(y + "/" + m, "/", dd);
    y + "/" + m + "/" + dd
  }

  /** A space, the hour unpadded, then minute and second zero-padded. */
  function ClockText(t: TimeOfDay): (s: string)
    ensures NoNewline(s) && 8 <= |s| && s[0] == ' '
    ensures t.minute < 100 && t.second < 100 ==>
              |s| == |NatToString(t.hour)| + 7 && (|s| == 8 <==> t.hour < 10)
    ensures t.minute < 100 && t.second < 100 ==> s[|s| - 3] == ':' && s[|s| - 6] == ':'
  {
    var h, m, c := NatToString(t.hour), Pad2(t.minute), Pad2(t.second);
    DigitsOnOneLine(h);
    DigitsOnOneLine(m);
    DigitsOnOneLine(c);
    NoNewlineAppend3(" ", h, ":");
    NoNewlineAppend3(" " + h + ":", m, ":");
    NoNewlineAppend(" " + h + ":" + m + ":", c);
    " " + h + ":" + m + ":" + c
  }

  /** The date, then the time of day only when there is one. */
  function TimeText(t: Time): (s: string)
    ensures NoNewline(s)
    ensures |DateText(t.date)| <= |s| && s[..|DateText(t.date)|] == DateText(t.date)
    ensures |s| == |DateText(t.date)| <==> t.time.None?
    ensures t.time.Some? ==> s[|DateText(t.date)|..] == ClockText(t.time.value)
  {
    var d := DateText(t.date);
    var c := if t.time.Some? then ClockText(t.time.value) else "";
    NoNewlineAppend(d, c);
    PrefixOfAppend(d, c);
    d + c
  }

  /** Reads a number followed by `sep`; gives what follows `sep`. */
  function TakeNatThen(s: string, sep: char): (r: (bool, nat, string))
  {
    var (ok, n, rest) := TakeNat(s);
    if ok && rest != [] && rest[0] == sep then (true, n, rest[1..]) else (false, 0, s)
  }

  lemma TakeNatThenOf(d: string, sep: char, t: string)
    requires AllDigits(d) && d != [] && !IsDigit(sep)
    ensures TakeNatThen(d + [sep] + t, sep) == (true, Value(d), t)
  {
    assert d + [sep] + t == d + ([sep] + t);
    TakeNatOfDigits(d, [sep] + t);
    assert ([sep] + t)[1..] == t;
  }

  function ParseClock(s: string): Option<TimeOfDay>
  {
    if s == [] || s[0] != ' ' then None
    else
      var (ok1, h, r1) := TakeNatThen(s[1..], ':');
      var (ok2, m, r2) := TakeNatThen(r1, ':');
      var (ok3, c, r3) := TakeNat(r2);
      if ok1 && ok2 && ok3 && r3 == [] && h < 256 && m < 256 && c < 256 then
        Some(TimeOfDay(h, m, c))
      else None
  }

  /** Reads `Y/M/D` at the front of `s`, and what follows it. */
  function ParseDate(s: string): Option<(Date, string)>
  {
    var year := TakeInt(s);
    if !year.0 || year.2 == [] || year.2[0] != '/' then None
    else
      var month := TakeNatThen(year.2[1..], '/');
      var day := TakeNat(month.2);
      if month.0 && day.0 && month.1 < 256 && day.1 < 256 then
        Some((Date(year.1, month.1, day.1), day.2))
      else None
  }

  function ParseTime(s: string): Option<Time>
  {
    var date := ParseDate(s);
    if date.None? then None
    else
      var (d, rest) := date.value;
      if rest == [] then Some(Time(d, None))
      else
        var clock := ParseClock(rest);
        if clock.Some? then Some(Time(d, clock)) else None
  }

  lemma ClockRoundTrip(t: TimeOfDay)
    ensures ParseClock(ClockText(t)) == Some(t)
  {
    var h, m, c := NatToString(t.hour), Pad2(t.minute), Pad2(t.second);
    ClockSplit(h, m, c);
    ValueOfNatToString(t.hour);
    TakeNatThenOf(h, ':', m + [':'] + c);
    assert TakeNatThen(ClockText(t)[1..], ':') == (true, t.hour as nat, m + [':'] + c);
    TakeNatThenOf(m, ':', c);
    assert TakeNatThen(m + [':'] + c, ':') == (true, t.minute as nat, c);
    TakeNatOfDigits(c, []);
    assert c + [] == c;
    assert TakeNat(c) == (true, t.second as nat, []);
  }

  /** Proof step: regroups a time of day so that each `:` leads what follows it. */
  lemma ClockSplit(h: string, m: string, c: string)
    ensures var s := " " + h + ":" + m + ":" + c;
      s != [] && s[0] == ' ' && s[1..] == h + [':'] + (m + [':'] + c)
  {
  }

  /** A date followed by a non-digit reads back as that date. */
  lemma DateRoundTrip(d: Date, tail: string)
    requires tail == [] || !IsDigit(tail[0])
    ensures ParseDate(DateText(d) + tail) == Some((d, tail))
  {
    var y, m, dd := IntToString(d.year), Pad2(d.month), Pad2(d.day);
    var r1 := ['/'] + (m + ['/'] + (dd + tail));
    SlashSplit(y, m, dd, tail);
    TakeIntOf(d.year, r1);
    assert TakeInt(DateText(d) + tail) == (true, d.year, r1);
    TakeNatThenOf(m, '/', dd + tail);
    assert TakeNatThen(r1[1..], '/') == (true, d.month as nat, dd + tail);
    TakeNatOfDigits(dd, tail);
    assert TakeNat(dd + tail) == (true, d.day as nat, tail);
  }

  /** Regroups `Y/M/D` followed by a tail so that each separator leads what
      follows it. */
  lemma SlashSplit(y: string, m: string, dd: string, tail: string)
    ensures var r1 := ['/'] + (m + ['/'] + (dd + tail));
      && y + "/" + m + "/" + dd + tail == y + r1
      && r1[0] == '/' && r1[1..] == m + ['/'] + (dd + tail)
  {
  }

  /** Every rendered time reads back as the same time, so the rendering is
      one-to-one (for any year, and whether or not a time of day is present). */
  lemma TimeRoundTrip(t: Time)
    ensures ParseTime(TimeText(t)) == Some(t)
  {
    var tail := if t.time.Some? then ClockText(t.time.value) else "";
    DateRoundTrip(t.date, tail);
    assert TimeText(t) == DateText(t.date) + tail;
    if t.time.Some? {
      ClockRoundTrip(t.time.value);
    }
  }

  lemma TimeTextInjective(a: Time, b: Time)
    ensures TimeText(a) == TimeText(b) <==> a == b
  {
    TimeRoundTrip(a);
    TimeRoundTrip(b);
  }

  /** The date of the source's tests. */
  lemma ExampleDate()
    ensures DateText(Date(2003, 5, 3)) == "2003/05/03"
  {
    assert IntToString(2003) == "2003" by {
      assert NatToString(20) == "20";
      assert NatToString(200) == "200";
    }
    assert Pad2(5) == "05" && Pad2(3) == "03";
  }

  /** The start time from the source's tests. */
  lemma StartTimeExample()
    ensures TimeText(Time(Date(2003, 5, 3), Some(TimeOfDay(10, 30, 0)))) == "2003/05/03 10:30:00"
  {
    ExampleDate();
    assert NatToString(10) == "10";
    assert Pad2(30) == "30";
    assert Pad2(0) == "00";
    ExampleClock(10, 30, 0, "10", "30", "00");
  }

  /** The end time from the source's tests. */
  lemma EndTimeExample()
    ensures TimeText(Time(Date(2003, 5, 3), Some(TimeOfDay(11, 11, 5)))) == "2003/05/03 11:11:05"
  {
    ExampleDate();
    assert NatToString(11) == "11";
    assert Pad2(11) == "11";
    assert Pad2(5) == "05";
    ExampleClock(11, 11, 5, "11", "11", "05");
  }

  /** Proof step: a time of day from its three rendered fields. */
  lemma ExampleClock(h: U8, m: U8, c: U8, hs: string, ms: string, cs: string)
    requires NatToString(h) == hs && Pad2(m) == ms && Pad2(c) == cs
    ensures ClockText(TimeOfDay(h, m, c)) == " " + hs + ":" + ms + ":" + cs
  {
  }

  /** A single-digit hour is written with one digit while minute and second
      keep two. */
  lemma UnpaddedHourExample()
    ensures TimeText(Time(Date(2003, 5, 3), Some(TimeOfDay(9, 5, 7)))) == "2003/05/03 9:05:07"
  {
    ExampleDate();
    assert ClockText(TimeOfDay(9, 5, 7)) == " 9:05:07";
  }

  // ------------------------------------------------------------ TimeLimit

  /** Main thinking time and byoyomi, in whole seconds. */
  datatype TimeLimit = TimeLimit(mainTime: nat, byoyomi: nat)

  function Hours(secs: nat): nat
  {
    secs / 3600
  }

  function Minutes(secs: nat): nat
  {
    (secs % 3600) / 60
  }

  /** The hour and minute fields keep all of the main time except its
      leftover seconds under a minute. */
  lemma HoursMinutesSplit(secs: nat)
    ensures Minutes(secs) < 60
    ensures Hours(secs) * 3600 + Minutes(secs) * 60 == secs / 60 * 60
    ensures secs - 60 < Hours(secs) * 3600 + Minutes(secs) * 60 <= secs
    ensures Hours(secs) == secs / 60 / 60 && Minutes(secs) == secs / 60 % 60
  {
    var q := secs / 60;
    assert secs == q * 60 + secs % 60;
    assert q == (q / 60) * 60 + q % 60;
    assert secs == (q / 60) * 3600 + (q % 60) * 60 + secs % 60;
    assert secs / 3600 == q / 60;
    assert secs % 3600 == (q % 60) * 60 + secs % 60;
  }

  /** `HH:MM+SS`: hours and minutes of the main time, then the byoyomi
      seconds, each zero-padded to two digits and never cut short. */
  function TimeLimitText(tl: TimeLimit): (s: string)
    ensures NoNewline(s) && 8 <= |s|
    ensures tl.mainTime < 360000 && tl.byoyomi < 100 ==> |s| == 8 && s[2] == ':' && s[5] == '+'
    ensures tl.mainTime < 360000 ==> s[2] == ':' && s[5] == '+' && |s| == 6 + |Pad2(tl.byoyomi)|
    ensures var hw := |Pad2(tl.mainTime / 3600)|;
      && |s| == hw + 4 + |Pad2(tl.byoyomi)| && s[hw] == ':' && s[hw + 3] == '+'
      && AllDigits(s[..hw]) && Value(s[..hw]) == tl.mainTime / 3600
      && AllDigits(s[hw + 1 .. hw + 3]) && Value(s[hw + 1 .. hw + 3]) == tl.mainTime % 3600 / 60
  {
    var h, m, b := Pad2(Hours(tl.mainTime)), Pad2(Minutes(tl.mainTime)), Pad2(tl.byoyomi);
    HoursMinutesSplit(tl.mainTime);
    DigitsOnOneLine(h);
    DigitsOnOneLine(m);
    DigitsOnOneLine(b);
    NoNewlineAppend3(h, ":", m);
    NoNewlineAppend3(h + ":" + m, "+", b);
    LimitLayout(h, m, b);
    h + ":" + m + "+" + b
  }

  /** Proof step: where the fields of `H:MM+S` sit. */
  lemma LimitLayout(h: string, m: string, b: string)
    requires |m| == 2
    ensures var s := h + ":" + m + "+" + b;
      && |s| == |h| + 4 + |b| && s[..|h|] == h && s[|h|] == ':'
      && s[|h| + 1 .. |h| + 3] == m && s[|h| + 3] == '+'
  {
  }

  /** The seconds in `h` hours and `m` minutes. */
  function MainSeconds(h: nat, m: nat): nat
  {
    h * 3600 + m * 60
  }

  /** Reads `H:M+S` back as a time limit of `H` hours and `M` minutes of main
      time and `S` seconds of byoyomi. */
  function ParseTimeLimit(s: string): Option<TimeLimit>
  {
    var hours := TakeNatThen(s, ':');
    var minutes := TakeNatThen(hours.2, '+');
    var byoyomi := TakeNat(minutes.2);
    if hours.0 && minutes.0 && byoyomi.0 && byoyomi.2 == [] then
      Some(TimeLimit(MainSeconds(hours.1, minutes.1), byoyomi.1))
    else None
  }

  /** Reading the text back gives the same byoyomi and the main time rounded
      down to whole minutes: exactly the leftover seconds are lost. */
  lemma TimeLimitRoundTrip(tl: TimeLimit)
    ensures ParseTimeLimit(TimeLimitText(tl)) == Some(TimeLimit(tl.mainTime / 60 * 60, tl.byoyomi))
  {
    var hours, minutes := Hours(tl.mainTime), Minutes(tl.mainTime);
    var h, m, b := Pad2(hours), Pad2(minutes), Pad2(tl.byoyomi);
    var r1 := m + ['+'] + b;
    var text := TimeLimitText(tl);
    assert text == h + [':'] + r1;
    TakeNatThenOf(h, ':', r1);
    assert TakeNatThen(text, ':') == (true, hours, r1);
    TakeNatThenOf(m, '+', b);
    assert TakeNatThen(r1, '+') == (true, minutes, b);
    TakeNatOfDigits(b, []);
    assert b + [] == b;
    assert TakeNat(b) == (true, tl.byoyomi, []);
    var p1 := TakeNatThen(text, ':');
    var p2 := TakeNatThen(p1.2, '+');
    var p3 := TakeNat(p2.2);
    assert p1.0 && p1.1 == hours && p1.2 == r1;
    assert p2.0 && p2.1 == minutes && p2.2 == b;
    assert p3.0 && p3.1 == tl.byoyomi && p3.2 == [];
    assert ParseTimeLimit(text) == Some(TimeLimit(MainSeconds(hours, minutes), tl.byoyomi));
    HoursMinutesSplit(tl.mainTime);
    assert MainSeconds(hours, minutes) == tl.mainTime / 60 * 60;
  }

  /** Two time limits render alike exactly when their main times agree in
      whole minutes and their byoyomi agree. */
  lemma TimeLimitTextEqual(a: TimeLimit, b: TimeLimit)
    ensures TimeLimitText(a) == TimeLimitText(b) <==>
              a.mainTime / 60 == b.mainTime / 60 && a.byoyomi == b.byoyomi
  {
    TimeLimitRoundTrip(a);
    TimeLimitRoundTrip(b);
    HoursMinutesSplit(a.mainTime);
    HoursMinutesSplit(b.mainTime);
  }

  /** The time limit from the source's tests: 1500 s main time, no byoyomi. */
  lemma TimeLimitExample()
    ensures TimeLimitText(TimeLimit(1500, 0)) == "00:25+00"
  {
    assert Hours(1500) == 0 && Minutes(1500) == 25;
    assert NatToString(25) == "25";
  }

  // -------------------------------------------------------- GameAttribute

  datatype GameAttribute = AttrTime(t: Time) | AttrTimeLimit(limit: TimeLimit) | Str(s: string)

  /** Each attribute is written as its payload is. */
  function AttributeText(a: GameAttribute): (s: string)
    ensures a.AttrTime? ==> ParseTime(s) == Some(a.t)
    ensures a.AttrTimeLimit? ==>
              ParseTimeLimit(s) == Some(TimeLimit(a.limit.mainTime / 60 * 60, a.limit.byoyomi))
    ensures a.Str? ==> s == a.s
    ensures a.AttrTime? ==> s == TimeText(a.t)
    ensures a.AttrTimeLimit? ==> s == TimeLimitText(a.limit)
  {
    match a
    case AttrTime(t) => TimeRoundTrip(t); TimeText(t)
    case AttrTimeLimit(tl) => TimeLimitRoundTrip(tl); TimeLimitText(tl)
    case Str(s) => s
  }
}
