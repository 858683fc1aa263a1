/**
 * The display side of the calculator: the per-language weekday and unit
 * tables and the formatter that renders a timestamp's local calendar
 * fields as a full date-time, a date, a time and a weekday name.
 */
module Display {
  import opened Wrappers
  import opened Decimal
  import opened Duration

  datatype Language = En | Zh

  /**
   * The local calendar fields of a timestamp, as the date object reports
   * them: `month` is zero-based and `weekday` counts from Sunday = 0.
   */
  datatype CalendarFields = CalendarFields(
    year: int, month: int, day: int, hours: int, minutes: int, seconds: int, weekday: int)
  {
    predicate Valid()
    {
      0 <= month < 12 && 1 <= day <= 31 && 0 <= hours < 24 && 0 <= minutes < 60 &&
      0 <= seconds < 60 && 0 <= weekday < 7
    }
  }

  /** Calendar fields that a date object can actually report. */
  type LocalFields = f: CalendarFields | f.Valid() witness CalendarFields(1970, 0, 1, 0, 0, 0, 4)

  /** The four strings shown for a timestamp. */
  datatype DisplayFields = DisplayFields(full: string, date: string, time: string, weekday: string)

  /** The weekday names of a language, Sunday first. */
  function Weekdays(lang: Language): (names: seq<string>)
    ensures |names| == 7
    ensures names[0] == (if lang == En then "Sunday" else "星期日")
  {
    match lang
    case En => ["Sunday", "Monday", "Tuesday", "Wednesday", "Thursday", "Friday", "Saturday"]
    case Zh => ["星期日", "星期一", "星期二", "星期三", "星期四", "星期五", "星期六"]
  }

  /** The label of a unit in a language, as shown in the result. */
  function UnitLabel(lang: Language, unit: TimeUnit): string
  {
    match lang
    case En => (
      match unit
      case Minutes => "Minutes"
      case Hours => "Hours"
      case Days => "Days"
      case Weeks => "Weeks"
      case Months => "Months"
      case Years => "Years")
    case Zh => (
      match unit
      case Minutes => "分钟"
      case Hours => "小时"
      case Days => "天"
      case Weeks => "周"
      case Months => "月"
      case Years => "年")
  }

  /** Each language gives the six units six different labels, so the label shown names the unit. */
  lemma UnitLabelsDistinct(lang: Language, u: TimeUnit, v: TimeUnit)
    ensures UnitLabel(lang, u) == UnitLabel(lang, v) <==> u == v
  {
  }

  /** `HH:MM:SS`, the same in both languages. */
  function TimeString(f: CalendarFields): string
    requires f.Valid()
  {
    TwoDigits(f.hours) + ":" + TwoDigits(f.minutes) + ":" + TwoDigits(f.seconds)
  }

  /** `MM/DD/YYYY` in English, `YYYY-MM-DD` in Chinese. */
  function DateString(f: CalendarFields, lang: Language): string
    requires f.Valid()
  {
    var year := IntString(f.year);
    var month := TwoDigits(f.month + 1);
    var day := TwoDigits(f.day);
    if lang == En then month + "/" + day + "/" + year else year + "-" + month + "-" + day
  }

  /** What precedes the time in the full string: `MM/DD/YYYY` in English, `YYYY年MM月DD日` in Chinese. */
  function Heading(f: CalendarFields, lang: Language): string
    requires f.Valid()
  {
    var year := IntString(f.year);
    var month := TwoDigits(f.month + 1);
    var day := TwoDigits(f.day);
    if lang == En then month + "/" + day + "/" + year else year + "年" + month + "月" + day + "日"
  }

  /** `MM/DD/YYYY HH:MM:SS` in English, `YYYY年MM月DD日 HH:MM:SS` in Chinese. */
  function FullString(f: CalendarFields, lang: Language): string
    requires f.Valid()
  {
    Heading(f, lang) + " " + TimeString(f)
  }

  /** Reads a display date back into (year, month, day); `None` when it is not in the language's layout. */
  function DecodeDate(s: string, lang: Language): Option<(int, int, int)>
  {
    if |s| < 7 then None
    else if lang == En then
      if s[2] == '/' && s[5] == '/' && IsTwoDigits(s[..2]) && IsTwoDigits(s[3..5]) && IsIntString(s[6..])
      then Some((ParseInt(s[6..]), TwoDigitValue(s[..2]), TwoDigitValue(s[3..5])))
      else None
    else
      var n := |s|;
      if s[n - 6] == '-' && s[n - 3] == '-' && IsTwoDigits(s[n - 5..n - 3]) && IsTwoDigits(s[n - 2..]) &&
         IsIntString(s[..n - 6])
      then Some((ParseInt(s[..n - 6]), TwoDigitValue(s[n - 5..n - 3]), TwoDigitValue(s[n - 2..])))
      else None
  }

  /** Reads a display time back into (hours, minutes, seconds). */
  function DecodeTime(s: string): Option<(int, int, int)>
  {
    if |s| == 8 && s[2] == ':' && s[5] == ':' &&
       IsTwoDigits(s[..2]) && IsTwoDigits(s[3..5]) && IsTwoDigits(s[6..])
    then Some((TwoDigitValue(s[..2]), TwoDigitValue(s[3..5]), TwoDigitValue(s[6..])))
    else None
  }

  /** Reads a full-string heading back into (year, month, day): the English date, or `YYYY年MM月DD日`. */
  function DecodeHeading(s: string, lang: Language): Option<(int, int, int)>
  {
    if lang == En then DecodeDate(s, En)
    else if |s| < 7 then None
    else
      var n := |s|;
      if s[n - 7] == '年' && s[n - 4] == '月' && s[n - 1] == '日' &&
         IsTwoDigits(s[n - 6..n - 4]) && IsTwoDigits(s[n - 3..n - 1]) && IsIntString(s[..n - 7])
      then Some((ParseInt(s[..n - 7]), TwoDigitValue(s[n - 6..n - 4]), TwoDigitValue(s[n - 3..n - 1])))
      else None
  }

  /** Reads a full string back into its day and its time of day: a heading, a space and `HH:MM:SS`. */
  function DecodeFull(s: string, lang: Language): Option<((int, int, int), (int, int, int))>
  {
    var n := |s|;
    if n < 9 || s[n - 9] != ' ' then None
    else
      match (DecodeHeading(s[..n - 9], lang), DecodeTime(s[n - 8..]))
      case (Some(day), Some(time)) => Some((day, time))
      case _ => None
  }

  /**
   * The four display strings of a timestamp whose local fields are `f`:
   * `full` and `date` read back as the calendar day and `full` and `time`
   * as the time of day, in the layout of the language.
   */
  function FormatDateTime(f: CalendarFields, lang: Language): (r: DisplayFields)
    requires f.Valid()
    ensures DecodeFull(r.full, lang) == Some(((f.year, f.month + 1, f.day), (f.hours, f.minutes, f.seconds)))
    ensures DecodeDate(r.date, lang) == Some((f.year, f.month + 1, f.day))
    ensures DecodeTime(r.time) == Some((f.hours, f.minutes, f.seconds))
  {
    FullStringLayout(f, lang);
    DateStringLayout(f, lang);
    TimeStringLayout(f);
    DisplayFields(FullString(f, lang), DateString(f, lang), TimeString(f), Weekdays(lang)[f.weekday])
  }

  /** The pieces of `a + sep + b + sep + c` for two-character `a` and `b`. */
  lemma Pieces(a: string, b: string, c: string, sep: string)
    requires |a| == 2 && |b| == 2 && |sep| == 1
    ensures var s := a + sep + b + sep + c;
      |s| == 6 + |c| && s[..2] == a && s[2] == sep[0] && s[3..5] == b && s[5] == sep[0] && s[6..] == c
  {
    var s := a + sep + b + sep + c;
    assert s[..2] == a;
    assert s[3..5] == b;
    assert s[6..] == c;
  }

  lemma DecodeTimeOf(h: string, m: string, sec: string)
    requires IsTwoDigits(h) && IsTwoDigits(m) && IsTwoDigits(sec)
    ensures |h + ":" + m + ":" + sec| == 8
    ensures DecodeTime(h + ":" + m + ":" + sec) == Some((TwoDigitValue(h), TwoDigitValue(m), TwoDigitValue(sec)))
  {
    Pieces(h, m, sec, ":");
  }

  lemma TimeStringLayout(f: CalendarFields)
    requires f.Valid()
    ensures |TimeString(f)| == 8
    ensures DecodeTime(TimeString(f)) == Some((f.hours, f.minutes, f.seconds))
  {
    var h, m, sec := TwoDigits(f.hours), TwoDigits(f.minutes), TwoDigits(f.seconds);
    assert TimeString(f) == h + ":" + m + ":" + sec;
    DecodeTimeOf(h, m, sec);
  }

  /** The pieces of `c + sep + a + sep + b` for two-character `a` and `b`. */
  lemma PiecesFromEnd(c: string, a: string, b: string, sep: string)
    requires |a| == 2 && |b| == 2 && |sep| == 1
    ensures var s := c + sep + a + sep + b; var n := |s|;
      n == |c| + 6 && s[..n - 6] == c && s[n - 6] == sep[0] && s[n - 5..n - 3] == a &&
      s[n - 3] == sep[0] && s[n - 2..] == b
  {
    var s := c + sep + a + sep + b;
    var n := |s|;
    assert s[..n - 6] == c;
    assert s[n - 5..n - 3] == a;
    assert s[n - 2..] == b;
  }

  lemma DecodeEnDate(m: string, d: string, y: string)
    requires IsTwoDigits(m) && IsTwoDigits(d) && IsIntString(y)
    ensures DecodeDate(m + "/" + d + "/" + y, En) == Some((ParseInt(y), TwoDigitValue(m), TwoDigitValue(d)))
  {
    Pieces(m, d, y, "/");
  }

  lemma DecodeZhDate(y: string, m: string, d: string)
    requires IsTwoDigits(m) && IsTwoDigits(d) && IsIntString(y)
    ensures DecodeDate(y + "-" + m + "-" + d, Zh) == Some((ParseInt(y), TwoDigitValue(m), TwoDigitValue(d)))
  {
    PiecesFromEnd(y, m, d, "-");
  }

  lemma DateStringLayout(f: CalendarFields, lang: Language)
    requires f.Valid()
    ensures DecodeDate(DateString(f, lang), lang) == Some((f.year, f.month + 1, f.day))
  {
    var y, m, d := IntString(f.year), TwoDigits(f.month + 1), TwoDigits(f.day);
    IntStringRoundTrip(f.year);
    IntStringShape(f.year);
    if lang == En {
      assert DateString(f, lang) == m + "/" + d + "/" + y;
      DecodeEnDate(m, d, y);
    } else {
      assert DateString(f, lang) == y + "-" + m + "-" + d;
      DecodeZhDate(y, m, d);
    }
  }

  /** The English and the Chinese date of a timestamp denote the same calendar day. */
  lemma SameDay(f: CalendarFields)
    requires f.Valid()
    ensures DecodeDate(FormatDateTime(f, En).date, En) == DecodeDate(FormatDateTime(f, Zh).date, Zh)
    ensures DecodeDate(FormatDateTime(f, En).date, En).Some?
  {
  }

  lemma DecodeZhHeadingOf(y: string, m: string, d: string)
    requires IsTwoDigits(m) && IsTwoDigits(d) && IsIntString(y)
    ensures DecodeHeading(y + "年" + m + "月" + d + "日", Zh) == Some((ParseInt(y), TwoDigitValue(m), TwoDigitValue(d)))
  {
    var s := y + "年" + m + "月" + d + "日";
    var n := |s|;
    assert n == |y| + 7;
    assert s[..n - 7] == y;
    assert s[n - 6..n - 4] == m;
    assert s[n - 3..n - 1] == d;
  }

  lemma ZhHeadingLayout(f: CalendarFields)
    requires f.Valid()
    ensures DecodeHeading(Heading(f, Zh), Zh) == Some((f.year, f.month + 1, f.day))
  {
    var y, m, d := IntString(f.year), TwoDigits(f.month + 1), TwoDigits(f.day);
    IntStringRoundTrip(f.year);
    IntStringShape(f.year);
    assert TwoDigitValue(m) == f.month + 1 && TwoDigitValue(d) == f.day;
    assert Heading(f, Zh) == y + "年" + m + "月" + d + "日";
    DecodeZhHeadingOf(y, m, d);
  }

  /** The heading of the full string reads back as the year, the one-based month and the day. */
  lemma HeadingLayout(f: CalendarFields, lang: Language)
    requires f.Valid()
    ensures DecodeHeading(Heading(f, lang), lang) == Some((f.year, f.month + 1, f.day))
  {
    if lang == En {
      assert Heading(f, En) == DateString(f, En);
      DateStringLayout(f, En);
    } else {
      ZhHeadingLayout(f);
    }
  }

  /** A heading, a space and an eight-character time split back into the three. */
  lemma SplitFull(head: string, time: string)
    requires |time| == 8
    ensures var s := head + " " + time; var n := |s|;
      n == |head| + 9 && s[..n - 9] == head && s[n - 9] == ' ' && s[n - 8..] == time
  {
    var s := head + " " + time;
    assert s[..|s| - 9] == head;
    assert s[|s| - 8..] == time;
  }

  lemma FullStringLayout(f: CalendarFields, lang: Language)
    requires f.Valid()
    ensures DecodeFull(FullString(f, lang), lang) == Some(((f.year, f.month + 1, f.day), (f.hours, f.minutes, f.seconds)))
  {
    var head, time := Heading(f, lang), TimeString(f);
    TimeStringLayout(f);
    HeadingLayout(f, lang);
    SplitFull(head, time);
  }

  /** A heading, a space and a time: the time is the tail of the whole. */
  lemma EndsWithTime(head: string, time: string)
    ensures var full := head + " " + time;
      |full| == |head| + 1 + |time| && full[|full| - |time|..] == time && full[|full| - |time| - 1] == ' '
  {
    var full := head + " " + time;
    assert full[|full| - |time|..] == time;
  }

  /**
   * `full` is the English date or the Chinese year-month-day heading, a
   * space, and then exactly the `time` string.
   */
  lemma FullLayout(f: CalendarFields, lang: Language)
    requires f.Valid()
    ensures var r := FormatDateTime(f, lang);
      |r.full| > |r.time| + 1 &&
      r.full[|r.full| - |r.time|..] == r.time && r.full[|r.full| - |r.time| - 1] == ' ' &&
      (lang == En ==> r.full == r.date + " " + r.time)
  {
    var head, time := Heading(f, lang), TimeString(f);
    var r := FormatDateTime(f, lang);
    assert r.full == head + " " + time && r.time == time && r.date == DateString(f, lang);
    assert |head| >= 1;
    assert lang == En ==> head == DateString(f, En);
    EndsWithTime(head, time);
  }

  /** No two weekdays share a name, in either language. */
  lemma WeekdaysDistinct(lang: Language, i: int, j: int)
    requires 0 <= i < 7 && 0 <= j < 7
    ensures Weekdays(lang)[i] == Weekdays(lang)[j] <==> i == j
  {
    var names := Weekdays(lang);
    if names[i] == names[j] {
      var k := if lang == En then 1 else 2;
      assert names[i][k] == names[j][k];
      if lang == En {
        assert names[i][..2] == names[j][..2];
      }
    }
  }

  /** The weekday shown is the language's name for the weekday index, and the name gives back the index. */
  lemma WeekdayName(f: CalendarFields, g: CalendarFields, lang: Language)
    requires f.Valid() && g.Valid()
    ensures FormatDateTime(f, lang).weekday == Weekdays(lang)[f.weekday]
    ensures FormatDateTime(f, lang).weekday == FormatDateTime(g, lang).weekday <==> f.weekday == g.weekday
  {
    assert FormatDateTime(f, lang).weekday == Weekdays(lang)[f.weekday];
    assert FormatDateTime(g, lang).weekday == Weekdays(lang)[g.weekday];
    WeekdaysDistinct(lang, f.weekday, g.weekday);
  }
}
