/**
 * Natural-language date and time parsing for bookings
 * (app/services/datetime_utils.py): relative dates such as "tomorrow" or
 * "next friday", the twelve `strptime` date formats the parser tries, clock
 * times in 24- and 12-hour forms and restaurant phrases ("dinner", "half past
 * 7"), the "<date> at <time>" splitter, and the 12/24-hour formatters.
 *
 * Input is lower-cased and stripped first, as the source does. The clock and
 * the time zone are not modelled: the reference date is a parameter.
 */
module DateTimeUtils {
  import opened Wrappers
  import opened Text
  import opened Calendar

  datatype Time = Time(hour: int, minute: int)

  predicate ValidTime(t: Time) { 0 <= t.hour <= 23 && 0 <= t.minute <= 59 }

  /** The weekday names the parser knows, Monday = 0. */
  const WeekdayTable: seq<(string, int)> := [
    ("monday", 0), ("mon", 0),
    ("tuesday", 1), ("tue", 1), ("tues", 1),
    ("wednesday", 2), ("wed", 2),
    ("thursday", 3), ("thu", 3), ("thur", 3), ("thurs", 3),
    ("friday", 4), ("fri", 4),
    ("saturday", 5), ("sat", 5),
    ("sunday", 6), ("sun", 6)]

  /** The value of the first entry of `table` under `key`. */
  function Lookup<V>(table: seq<(string, V)>, key: string): Option<V>
  {
    if table == [] then None
    else if table[0].0 == key then Some(table[0].1)
    else Lookup(table[1..], key)
  }

  /** A value found is the value of an entry with that key. */
  lemma {:induction false} LookupFound<V>(table: seq<(string, V)>, key: string)
    requires Lookup(table, key).Some?
    ensures (key, Lookup(table, key).value) in table
  {
    if table[0].0 != key {
      LookupFound(table[1..], key);
    }
  }

  /** The value of the first entry that carries the key. */
  lemma {:induction false} LookupAt<V>(table: seq<(string, V)>, key: string, k: nat)
    requires k < |table| && table[k].0 == key && forall i :: 0 <= i < k ==> table[i].0 != key
    ensures Lookup(table, key) == Some(table[k].1)
  {
    if k > 0 {
      LookupAt(table[1..], key, k - 1);
    }
  }

  /** A key that no entry carries has no value. */
  lemma {:induction false} LookupMiss<V>(table: seq<(string, V)>, key: string)
    requires forall i :: 0 <= i < |table| ==> table[i].0 != key
    ensures Lookup(table, key).None?
  {
    if table != [] {
      LookupMiss(table[1..], key);
    }
  }

  /**
   * Each weekday name is a run of at least three lower-case letters with a number
   * below seven, and none of them is "evening".
   */
  lemma WeekdayTableShape()
    ensures forall i :: 0 <= i < |WeekdayTable| ==>
      0 <= WeekdayTable[i].1 < 7 && |WeekdayTable[i].0| >= 3
      && (forall j :: 0 <= j < |WeekdayTable[i].0| ==> 'a' <= WeekdayTable[i].0[j] <= 'z')
      && WeekdayTable[i].0 != "evening"
  {
  }

  /** `WEEKDAYS.get(name)`. */
  function WeekdayNumber(name: string): (r: Option<int>)
    ensures r.Some? ==> 0 <= r.value < 7
  {
    var r := Lookup(WeekdayTable, name);
    if r.Some? then LookupFound(WeekdayTable, name); WeekdayTableShape(); r else r
  }

  /** Weekday names are lower-case words of three or more letters, none of them a fixed word or "evening". */
  lemma WeekdayName(name: string)
    ensures WeekdayNumber(name).Some? ==>
      |name| >= 3 && (forall j :: 0 <= j < |name| ==> 'a' <= name[j] <= 'z')
      && FixedOffset(name).None? && name != "evening"
  {
    if WeekdayNumber(name).Some? {
      LookupFound(WeekdayTable, name);
      WeekdayTableShape();
      WeekdaysNotFixed();
      LookupMiss(FixedWords, name);
    }
  }

  /** No weekday name is a fixed word. */
  lemma WeekdaysNotFixed()
    ensures forall i, j :: 0 <= i < |WeekdayTable| && 0 <= j < |FixedWords| ==> WeekdayTable[i].0 != FixedWords[j].0
  {
  }

  /** Restaurant phrases that stand for a clock time. */
  const TimeExpressions: map<string, Time> := map[
    "noon" := Time(12, 0), "midday" := Time(12, 0), "midnight" := Time(0, 0),
    "morning" := Time(9, 0), "afternoon" := Time(14, 0), "evening" := Time(18, 0),
    "night" := Time(20, 0), "lunch" := Time(12, 0), "lunch time" := Time(12, 0),
    "lunchtime" := Time(12, 0), "dinner" := Time(19, 0), "dinner time" := Time(19, 0),
    "dinnertime" := Time(19, 0), "breakfast" := Time(8, 0), "brunch" := Time(11, 0)]

  lemma TimeExpressionsValid()
    ensures forall k :: k in TimeExpressions ==> ValidTime(TimeExpressions[k])
  {
  }

  // ---------------------------------------------------------------------------
  // Current date and time

  /** The day-part flags `get_current_datetime` reports for an hour. */
  datatype DayParts = DayParts(isMorning: bool, isAfternoon: bool, isEvening: bool, isNight: bool)

  function Flag(b: bool): nat { if b then 1 else 0 }

  function DayPartsOf(hour: int): (p: DayParts)
    requires 0 <= hour <= 23
    ensures Flag(p.isMorning) + Flag(p.isAfternoon) + Flag(p.isEvening) + Flag(p.isNight) == 1
    ensures p.isMorning ==> hour < 12
    ensures p.isAfternoon || p.isEvening ==> 12 <= hour < 21
  {
    DayParts(5 <= hour < 12, 12 <= hour < 17, 17 <= hour < 21, hour >= 21 || hour < 5)
  }

  /** What `get_current_datetime` reports about a given local date and time. */
  datatype DateTimeInfo = DateTimeInfo(currentDate: string, currentTime: string, hour: int, minute: int, parts: DayParts)

  function CurrentDateTimeInfo(today: Date, now: Time): (info: DateTimeInfo)
    requires InRange(today) && ValidTime(now)
    ensures Strptime(info.currentDate, IsoDate) == Some(today)
    ensures ParseTime(info.currentTime) == Some(now)
  {
    IsoRoundTrip(today);
    Format24hRoundTrip(now.hour, now.minute);
    DateTimeInfo(IsoFormat(today), FormatTime24h(now.hour, now.minute), now.hour, now.minute, DayPartsOf(now.hour))
  }

  // ---------------------------------------------------------------------------
  // Clock times

  /** The captured groups of one time pattern: hour, minute, and the am/pm group if any. */
  datatype Clock = Clock(hour: int, minute: int, period: Option<string>)

  /** The `(am|pm|a\.m\.|p\.m\.)` group with its dots removed. */
  function PeriodOf(s: string): Option<string>
  {
    if s == "am" || s == "a.m." then Some("am") else if s == "pm" || s == "p.m." then Some("pm") else None
  }

  /** A trailing `\s*(am|pm)?$`: absent, am or pm; anything else does not match. */
  function OptionalPeriod(s: string): Option<Option<string>>
  {
    var r := SkipSpaces(s);
    if r == [] then Some(None) else if r == "am" || r == "pm" then Some(Some(r)) else None
  }

  /** The 12-hour reading of an hour: pm adds 12 except at 12, and 12 am is 0. */
  function ApplyPeriod(hour: int, period: string): (h: int)
    ensures 1 <= hour <= 12 && period == "am" ==> h == hour % 12
    ensures 1 <= hour <= 12 && period == "pm" ==> h == hour % 12 + 12
  {
    if period == "pm" && hour != 12 then hour + 12
    else if period == "am" && hour == 12 then 0
    else hour
  }

  /** As `ApplyPeriod`, but a missing period is read as pm (the restaurant assumption). */
  function ApplyOptionalPeriod(hour: int, period: Option<string>): (h: int)
    ensures 1 <= hour <= 12 ==> 0 <= h <= 23
    ensures 1 <= hour <= 12 && period.None? ==> h == hour % 12 + 12
  {
    match period
    case Some(p) => ApplyPeriod(hour, p)
    case None => if hour < 12 then hour + 12 else hour
  }

  /** A one- or two-digit hour at the start of `s` (`\d{1,2}` followed by a non-digit). */
  function HourDigits(s: string): Option<nat>
  {
    var n := LeadingDigits(s);
    if n == 1 || n == 2 then Some(n) else None
  }

  /** `^(\d{1,2}):(\d{2})$` */
  function Match24h(e: string): Option<Clock>
  {
    match HourDigits(e)
    case None => None
    case Some(n) =>
      if |e| == n + 3 && e[n] == ':' && IsDigit(e[n + 1]) && IsDigit(e[n + 2])
      then Some(Clock(DigitsValue(e[..n]), DigitsValue(e[n + 1..]), None))
      else None
  }

  /** `^(\d{1,2}):(\d{2})\s*(am|pm|a\.m\.|p\.m\.)$` */
  function Match12hMinutes(e: string): Option<Clock>
  {
    match HourDigits(e)
    case None => None
    case Some(n) =>
      if |e| >= n + 3 && e[n] == ':' && IsDigit(e[n + 1]) && IsDigit(e[n + 2])
         && PeriodOf(SkipSpaces(e[n + 3..])).Some?
      then Some(Clock(DigitsValue(e[..n]), DigitsValue(e[n + 1..n + 3]), PeriodOf(SkipSpaces(e[n + 3..]))))
      else None
  }

  /** `^(\d{1,2})\s*(am|pm|a\.m\.|p\.m\.)$` */
  function Match12h(e: string): Option<Clock>
  {
    match HourDigits(e)
    case None => None
    case Some(n) =>
      if PeriodOf(SkipSpaces(e[n..])).Some?
      then Some(Clock(DigitsValue(e[..n]), 0, PeriodOf(SkipSpaces(e[n..]))))
      else None
  }

  /** `^(\d{1,2})$` */
  function MatchHour(e: string): Option<Clock>
  {
    match HourDigits(e)
    case None => None
    case Some(n) => if |e| == n then Some(Clock(DigitsValue(e), 0, None)) else None
  }

  /** `(\d{1,2})\s*(am|pm)?$` at the start of `s`. */
  function HourTail(s: string): Option<Clock>
  {
    match HourDigits(s)
    case None => None
    case Some(n) =>
      match OptionalPeriod(s[n..])
      case None => None
      case Some(p) => Some(Clock(DigitsValue(s[..n]), 0, p))
  }

  /** `^(\d{1,2})\s*o\'?clock\s*(am|pm)?$` */
  function MatchOclock(e: string): Option<Clock>
  {
    match HourDigits(e)
    case None => None
    case Some(n) =>
      var r := SkipSpaces(e[n..]);
      var k := if StartsWith(r, "o'clock") then 7 else if StartsWith(r, "oclock") then 6 else 0;
      if k == 0 then None
      else
        match OptionalPeriod(r[k..])
        case None => None
        case Some(p) => Some(Clock(DigitsValue(e[..n]), 0, p))
  }

  /** `w\s+` at the start of `s`: what follows the whitespace. */
  function AfterWord(s: string, w: string): Option<string>
  {
    if StartsWith(s, w) && LeadingSpaces(s[|w|..]) >= 1 then Some(SkipSpaces(s[|w|..])) else None
  }

  /** `^w1\s+w2\s+(\d{1,2})\s*(am|pm)?$`, as in "half past 7" or "quarter to 8 pm". */
  function MatchPhrase(e: string, w1: string, w2: string): Option<Clock>
  {
    match AfterWord(e, w1)
    case None => None
    case Some(r) =>
      match AfterWord(r, w2)
      case None => None
      case Some(t) => HourTail(t)
  }

  /** `parse_time`: the patterns in the source's order; a match whose numbers are out of range falls through. */
  function ParseTime(expression: string): (r: Option<Time>)
    ensures r.Some? ==> ValidTime(r.value)
  {
    var e := Strip(Lower(expression));
    TimeExpressionsValid();
    if e in TimeExpressions then Some(TimeExpressions[e])
    else ParseClock(e)
  }

  /** The numeric patterns of `parse_time`, tried in order. */
  function ParseClock(e: string): (r: Option<Time>)
    ensures r.Some? ==> ValidTime(r.value)
  {
    FirstClock(Match24h(e), Match12hMinutes(e), Match12h(e), MatchHour(e), MatchOclock(e),
               MatchPhrase(e, "half", "past"), MatchPhrase(e, "quarter", "past"), MatchPhrase(e, "quarter", "to"))
  }

  /** The first pattern that matched with its numbers in range decides the time. */
  function FirstClock(m24: Option<Clock>, m12m: Option<Clock>, m12: Option<Clock>, mh: Option<Clock>,
                      mo: Option<Clock>, half: Option<Clock>, qpast: Option<Clock>, qto: Option<Clock>): (r: Option<Time>)
    ensures r.Some? ==> ValidTime(r.value)
  {
    if m24.Some? && 0 <= m24.value.hour <= 23 && 0 <= m24.value.minute <= 59 then
      Some(Time(m24.value.hour, m24.value.minute))
    else if m12m.Some? && 1 <= m12m.value.hour <= 12 && 0 <= m12m.value.minute <= 59 then
      Some(Time(ApplyOptionalPeriod(m12m.value.hour, m12m.value.period), m12m.value.minute))
    else if m12.Some? && 1 <= m12.value.hour <= 12 then
      Some(Time(ApplyOptionalPeriod(m12.value.hour, m12.value.period), 0))
    else if mh.Some? && 0 <= mh.value.hour <= 23 then
      Some(Time(if 1 <= mh.value.hour <= 9 then mh.value.hour + 12 else mh.value.hour, 0))
    else if mo.Some? && 1 <= mo.value.hour <= 12 then
      Some(Time(ApplyOptionalPeriod(mo.value.hour, mo.value.period), 0))
    else if half.Some? && 1 <= half.value.hour <= 12 then
      Some(Time(ApplyOptionalPeriod(half.value.hour, half.value.period), 30))
    else if qpast.Some? && 1 <= qpast.value.hour <= 12 then
      Some(Time(ApplyOptionalPeriod(qpast.value.hour, qpast.value.period), 15))
    else if qto.Some? && 1 <= qto.value.hour <= 12 then
      var h := ApplyOptionalPeriod(qto.value.hour, qto.value.period) - 1;
      Some(Time(if h < 0 then 23 else h, 45))
    else None
  }

  // ---------------------------------------------------------------------------
  // Formatting

  /** `format_time_24h`: `HH:MM`. */
  function FormatTime24h(hour: nat, minute: nat): string
  {
    Pad2(hour) + ":" + Pad2(minute)
  }

  /** `format_time_12h`: "7 PM", "7:30 PM", "12 AM" for midnight. It takes any integers,
      as Python does: the hour goes through `% 12`, which Dafny computes as Python does
      for the divisor 12. */
  function FormatTime12h(hour: int, minute: int): string
  {
    var period := if hour < 12 then "AM" else "PM";
    var display: nat := if hour % 12 == 0 then 12 else hour % 12;
    if minute == 0 then NatToString(display) + (" " + period)
    else NatToString(display) + (":" + (Format02d(minute) + (" " + period)))
  }

  /** `f"{n:02d}"`: zero-padded to two characters, the minus sign counting toward the width. */
  function Format02d(n: int): (r: string)
    ensures n >= 0 ==> r == Pad2(n)
    ensures n < 0 ==> r == "-" + NatToString(-n) && |r| >= 2
  {
    if n >= 0 then Pad2(n) else "-" + NatToString(-n)
  }

  /** `%H` of `strptime`: `2[0-3]|[0-1]\d|\d`. */
  predicate HourField(s: string)
  {
    (|s| == 2 && ((s[0] == '2' && '0' <= s[1] <= '3') || ('0' <= s[0] <= '1' && IsDigit(s[1]))))
    || (|s| == 1 && IsDigit(s[0]))
  }

  /** `%M` of `strptime`: `[0-5]\d|\d`. */
  predicate MinuteField(s: string)
  {
    (|s| == 2 && '0' <= s[0] <= '5' && IsDigit(s[1])) || (|s| == 1 && IsDigit(s[0]))
  }

  /** `datetime.strptime(s, '%H:%M').time()`. */
  function StrptimeTime(s: string): (r: Option<Time>)
    ensures r.Some? ==> ValidTime(r.value)
  {
    var k := IndexOf(s, ':');
    if k < 0 || !HourField(s[..k]) || !MinuteField(s[k + 1..]) then None
    else
      TimeFieldsValue(s[..k], s[k + 1..]);
      Some(Time(DigitsValue(s[..k]), DigitsValue(s[k + 1..])))
  }

  lemma TimeFieldsValue(h: string, m: string)
    requires HourField(h) && MinuteField(m)
    ensures AllDigits(h) && AllDigits(m) && ValidTime(Time(DigitsValue(h), DigitsValue(m)))
  {
    if |h| == 1 { DigitsValueOne(h); } else { DigitsValueTwo(h); }
    if |m| == 1 { DigitsValueOne(m); } else { DigitsValueTwo(m); }
  }

  // ---------------------------------------------------------------------------
  // Dates

  /** The directives of the `strptime` formats the parser tries. */
  datatype Directive = Year4 | Year2 | MonthNum | DayNum | MonthName | MonthAbbr | Lit(c: char) | Spaces

  /** `%Y-%m-%d` */
  const IsoDate: seq<Directive> := [Year4, Lit('-'), MonthNum, Lit('-'), DayNum]

  /** `%Y-%m-%d`, `%m/%d/%Y`, `%m/%d/%y`, `%d/%m/%Y`, `%B %d, %Y`, `%B %d %Y`, `%b %d, %Y`,
      `%b %d %Y`, `%d %B %Y`, `%d %b %Y`, `%B %d`, `%b %d`, in that order. */
  const DateFormats: seq<seq<Directive>> := [
    IsoDate,
    [MonthNum, Lit('/'), DayNum, Lit('/'), Year4],
    [MonthNum, Lit('/'), DayNum, Lit('/'), Year2],
    [DayNum, Lit('/'), MonthNum, Lit('/'), Year4],
    [MonthName, Spaces, DayNum, Lit(','), Spaces, Year4],
    [MonthName, Spaces, DayNum, Spaces, Year4],
    [MonthAbbr, Spaces, DayNum, Lit(','), Spaces, Year4],
    [MonthAbbr, Spaces, DayNum, Spaces, Year4],
    [DayNum, Spaces, MonthName, Spaces, Year4],
    [DayNum, Spaces, MonthAbbr, Spaces, Year4],
    [MonthName, Spaces, DayNum],
    [MonthAbbr, Spaces, DayNum]]

  const MonthNames: seq<string> := ["january", "february", "march", "april", "may", "june", "july",
                                    "august", "september", "october", "november", "december"]
  const MonthAbbreviations: seq<string> := ["jan", "feb", "mar", "apr", "may", "jun", "jul",
                                            "aug", "sep", "oct", "nov", "dec"]

  /** The 1-based position of `s` in `names`. */
  function MonthNumber(names: seq<string>, s: string): (r: Option<int>)
    ensures r.Some? ==> 1 <= r.value <= |names| && names[r.value - 1] == s
  {
    if names == [] then None
    else if names[0] == s then Some(1)
    else match MonthNumber(names[1..], s)
      case None => None
      case Some(k) => Some(k + 1)
  }

  /** The fields a format has filled in; `strptime` defaults the year to 1900. */
  datatype Fields = Fields(year: Option<int>, month: int, day: int)

  /** The value one field directive reads from exactly the text `t`. */
  function FieldValue(d: Directive, t: string): (r: Option<int>)
    ensures r.Some? && (d.MonthNum? || d.MonthName? || d.MonthAbbr?) ==> 1 <= r.value <= 12
    ensures r.Some? && d.DayNum? ==> 1 <= r.value <= 31
  {
    match d
    case Year4 => if |t| == 4 && AllDigits(t) then Some(DigitsValue(t)) else None
    case Year2 =>
      if |t| == 2 && AllDigits(t) then
        var y := DigitsValue(t);
        Some(if y <= 68 then y + 2000 else y + 1900)
      else None
    case MonthNum => if MonthField(t) then (FieldsValue("0000", t, "1"); Some(DigitsValue(t))) else None
    case DayNum => if DayField(t) then (FieldsValue("0000", "1", t); Some(DigitsValue(t))) else None
    case MonthName => MonthNumber(MonthNames, t)
    case MonthAbbr => MonthNumber(MonthAbbreviations, t)
    case _ => None
  }

  function Store(f: Fields, d: Directive, v: int): Fields
  {
    match d
    case Year4 => f.(year := Some(v))
    case Year2 => f.(year := Some(v))
    case DayNum => f.(day := v)
    case _ => f.(month := v)
  }

  /** The length of the field at the start of `s`: up to where the next directive can begin. */
  function FieldSpan(s: string, rest: seq<Directive>): (n: nat)
    ensures n <= |s|
  {
    if rest == [] then |s|
    else match rest[0]
      case Lit(c) => (var k := IndexOf(s, c); if k < 0 then |s| else k)
      case Spaces => FirstSpace(s)
      case _ => |s|
  }

  function FirstSpace(s: string): (n: nat)
    ensures n <= |s|
  {
    if s == [] || IsSpace(s[0]) then 0 else 1 + FirstSpace(s[1..])
  }

  /** Matches the whole of `s` against the directives `fmt`. */
  function MatchFormat(s: string, fmt: seq<Directive>, f: Fields): (r: Option<Fields>)
    requires 1 <= f.month <= 12 && 1 <= f.day <= 31
    ensures r.Some? ==> 1 <= r.value.month <= 12 && 1 <= r.value.day <= 31
    decreases fmt
  {
    if fmt == [] then (if s == [] then Some(f) else None)
    else match fmt[0]
      case Lit(c) => if s != [] && s[0] == c then MatchFormat(s[1..], fmt[1..], f) else None
      case Spaces =>
        var k := LeadingSpaces(s);
        if k >= 1 then MatchFormat(s[k..], fmt[1..], f) else None
      case _ =>
        var n := FieldSpan(s, fmt[1..]);
        match FieldValue(fmt[0], s[..n])
        case None => None
        case Some(v) => MatchFormat(s[n..], fmt[1..], Store(f, fmt[0], v))
  }

  /** `datetime.strptime(s, fmt).date()`: the matched fields must name a real date. */
  function Strptime(s: string, fmt: seq<Directive>): (r: Option<Date>)
    ensures r.Some? ==> InRange(r.value)
  {
    match MatchFormat(s, fmt, Fields(None, 1, 1))
    case None => None
    case Some(f) =>
      var d := Date(if f.year.Some? then f.year.value else 1900, f.month, f.day);
      if 1 <= d.year <= 9999 && d.day <= DaysInMonth(d.year, d.month) then Some(d) else None
  }

  /** A parsed year of 1900 (the `strptime` default) is replaced by the reference year,
      or by the next year when that date has already passed. */
  function Rollover(p: Date, ref: Date): (r: Date)
    requires Valid(p) && Valid(ref)
    ensures Valid(r)
    ensures p.year != 1900 ==> r == p
    ensures p.year == 1900 ==> r.month == p.month && r.day == p.day && !Before(r, ref)
                               && (r.year == ref.year || r.year == ref.year + 1)
    ensures p.year == 1900 ==> (r.year == ref.year + 1 <==> Before(p.(year := ref.year), ref))
  {
    if p.year != 1900 then p
    else
      var q := p.(year := ref.year);
      if Before(q, ref) then p.(year := ref.year + 1) else q
  }

  /** The first of `formats` that parses `e`, after the year-1900 rule. */
  function FirstFormat(e: string, formats: seq<seq<Directive>>, ref: Date): (r: Option<Date>)
    requires Valid(ref)
    ensures r.Some? ==> Valid(r.value)
  {
    if formats == [] then None
    else match Strptime(e, formats[0])
      case Some(p) => Some(Rollover(p, ref))
      case None => FirstFormat(e, formats[1..], ref)
  }

  /** Days from weekday `current` to the next `target` strictly after it: 1 to 7. */
  function DaysAhead(target: int, current: int): (n: int)
    requires 0 <= target < 7 && 0 <= current < 7
    ensures 1 <= n <= 7 && (current + n) % 7 == target
  {
    var d := target - current;
    if d <= 0 then d + 7 else d
  }

  /** `re.match(r'in\s+(\d+)\s+days?', e)`: the number of days. */
  function MatchInDays(e: string): Option<nat>
  {
    match AfterWord(e, "in")
    case None => None
    case Some(r) =>
      var n := LeadingDigits(r);
      if n >= 1 && LeadingSpaces(r[n..]) >= 1 && StartsWith(SkipSpaces(r[n..]), "day")
      then Some(DigitsValue(r[..n])) else None
  }

  /** `re.match(r'w\s+(\w+)', e)`: the captured word. */
  function MatchWordAfter(e: string, w: string): Option<string>
  {
    match AfterWord(e, w)
    case None => None
    case Some(r) => var n := LeadingWordChars(r); if n >= 1 then Some(r[..n]) else None
  }

  /** `parse_relative_date`, the branches in the source's order. */
  function ParseRelativeDate(expression: string, ref: Date): (r: Option<Date>)
    requires Valid(ref)
    ensures r.Some? ==> Valid(r.value)
  {
    RelativeDate(Strip(Lower(expression)), ref)
  }

  /** The words that name a fixed offset in days from the reference date, in the order they are tested. */
  const FixedWords: seq<(string, int)> := [
    ("today", 0), ("tonight", 0), ("this evening", 0),
    ("tomorrow", 1), ("tmrw", 1), ("tmr", 1),
    ("day after tomorrow", 2), ("overmorrow", 2),
    ("yesterday", -1)]

  /** Each fixed word starts with 't', 'd', 'o' or 'y' and has an offset from -1 to 2. */
  lemma FixedWordsTable()
    ensures forall i :: 0 <= i < |FixedWords| ==>
      -1 <= FixedWords[i].1 <= 2 && FixedWords[i].0 != []
      && (FixedWords[i].0[0] == 't' || FixedWords[i].0[0] == 'd' || FixedWords[i].0[0] == 'o' || FixedWords[i].0[0] == 'y')
  {
  }

  function FixedOffset(e: string): (r: Option<int>)
    ensures r.Some? ==> -1 <= r.value <= 2
  {
    var r := Lookup(FixedWords, e);
    if r.Some? then LookupFound(FixedWords, e); FixedWordsTable(); r else r
  }

  /** An expression starting with any other character is none of the fixed words. */
  lemma NotFixed(e: string)
    requires e != [] && e[0] != 't' && e[0] != 'd' && e[0] != 'o' && e[0] != 'y'
    ensures FixedOffset(e).None?
  {
    FixedWordsTable();
    LookupMiss(FixedWords, e);
  }

  /** The weekday number of the word `re.match(r'w\s+(\w+)')` captures, if it names one. */
  function WeekdayAfter(e: string, w: string): (r: Option<int>)
    ensures r.Some? ==> 0 <= r.value < 7
  {
    match MatchWordAfter(e, w)
    case None => None
    case Some(name) => WeekdayNumber(name)
  }

  /** The branches of `parse_relative_date` on the normalised expression `e`. */
  function RelativeDate(e: string, ref: Date): (r: Option<Date>)
    requires Valid(ref)
    ensures r.Some? ==> Valid(r.value)
  {
    var offset := RelativeOffset(FixedOffset(e), MatchInDays(e), WeekdayAfter(e, "this"), WeekdayAfter(e, "next"),
                                 WeekdayNumber(e), Weekday(ref));
    if offset.Some? then Some(AddDays(ref, offset.value)) else FirstFormat(e, DateFormats, ref)
  }

  /**
   * The day offset the first matching relative branch gives, from the fixed word, the
   * "in N days" count, the weekday after "this" or "next", or a bare weekday; `current`
   * is the reference date's weekday.
   */
  function RelativeOffset(fixed: Option<int>, inDays: Option<nat>, thisDay: Option<int>, nextDay: Option<int>,
                          bare: Option<int>, current: int): (r: Option<int>)
    requires 0 <= current < 7
    requires thisDay.Some? ==> 0 <= thisDay.value < 7
    requires nextDay.Some? ==> 0 <= nextDay.value < 7
    requires bare.Some? ==> 0 <= bare.value < 7
    ensures r.None? <==> fixed.None? && inDays.None? && thisDay.None? && nextDay.None? && bare.None?
  {
    if fixed.Some? then fixed
    else if inDays.Some? then Some(inDays.value)
    else if thisDay.Some? then Some(DaysAhead(thisDay.value, current))
    else if nextDay.Some? then Some(DaysAhead(nextDay.value, current) + 7)
    else if bare.Some? then Some(DaysAhead(bare.value, current))
    else None
  }

  // ---------------------------------------------------------------------------
  // Date and time together

  /** The end of a `\s+at\s+|\s*@\s*` match starting at `i`, if one starts there. */
  function SeparatorAt(e: string, i: nat): (r: Option<nat>)
    requires i <= |e|
    ensures r.Some? ==> i < r.value <= |e|
  {
    var k1 := LeadingSpaces(e[i..]);
    var j := i + k1;
    if k1 >= 1 && StartsWith(e[j..], "at") && LeadingSpaces(e[j + 2..]) >= 1 then
      Some(j + 2 + LeadingSpaces(e[j + 2..]))
    else if j < |e| && e[j] == '@' then
      Some(j + 1 + LeadingSpaces(e[j + 1..]))
    else None
  }

  /** The leftmost separator match at or after `i`: its start and end. */
  function FindSeparator(e: string, i: nat): (r: Option<(nat, nat)>)
    requires i <= |e|
    ensures r.Some? ==> i <= r.value.0 < r.value.1 <= |e| && SeparatorAt(e, r.value.0) == Some(r.value.1)
    ensures r.Some? ==> forall k :: i <= k < r.value.0 ==> SeparatorAt(e, k).None?
    ensures r.None? ==> forall k :: i <= k <= |e| ==> SeparatorAt(e, k).None?
    decreases |e| - i
  {
    match SeparatorAt(e, i)
    case Some(end) => Some((i, end))
    case None => if i == |e| then None else FindSeparator(e, i + 1)
  }

  /** What `parse_datetime` reports; the ISO date and `HH:MM` strings are given by their values. */
  datatype ParsedDateTime = ParsedDateTime(original: string, parsedDate: Option<Date>, parsedTime: Option<Time>, success: bool)

  /** `parse_datetime`: both halves around "at"/"@", else a date alone, else a time alone. */
  function ParseDateTime(expression: string, today: Date): (r: ParsedDateTime)
    requires Valid(today)
    ensures r.original == Strip(Lower(expression))
    ensures r.success <==> r.parsedDate.Some? || r.parsedTime.Some?
    ensures r.parsedDate.Some? && r.parsedTime.None? ==> ParseRelativeDate(r.original, today) == r.parsedDate
    ensures r.parsedTime.Some? && r.parsedDate.None? ==>
              ParseRelativeDate(r.original, today).None? && ParseTime(r.original) == r.parsedTime
    ensures !r.success ==> ParseRelativeDate(r.original, today).None? && ParseTime(r.original).None?
    ensures var split := FindSeparator(r.original, 0);
      r.parsedDate.Some? && r.parsedTime.Some? <==>
        split.Some? && ParseRelativeDate(r.original[..split.value.0], today).Some?
        && ParseTime(r.original[split.value.1..]).Some?
    ensures var split := FindSeparator(r.original, 0);
      r.parsedDate.Some? && r.parsedTime.Some? ==>
        ParseRelativeDate(r.original[..split.value.0], today) == r.parsedDate
        && ParseTime(r.original[split.value.1..]) == r.parsedTime
  {
    var e := Strip(Lower(expression));
    var split := FindSeparator(e, 0);
    var both :=
      if split.None? then None
      else
        var d := ParseRelativeDate(e[..split.value.0], today);
        var t := ParseTime(e[split.value.1..]);
        if d.Some? && t.Some? then Some((d.value, t.value)) else None;
    if both.Some? then ParsedDateTime(e, Some(both.value.0), Some(both.value.1), true)
    else
      var d := ParseRelativeDate(e, today);
      if d.Some? then ParsedDateTime(e, d, None, true)
      else
        var t := ParseTime(e);
        if t.Some? then ParsedDateTime(e, None, t, true)
        else ParsedDateTime(e, None, None, false)
  }

  // ---------------------------------------------------------------------------
  // Properties

  lemma LitStep(s: string, fmt: seq<Directive>, f: Fields)
    requires 1 <= f.month <= 12 && 1 <= f.day <= 31
    requires fmt != [] && fmt[0].Lit? && s != [] && s[0] == fmt[0].c
    ensures MatchFormat(s, fmt, f) == MatchFormat(s[1..], fmt[1..], f)
  {
  }

  lemma FieldStep(s: string, fmt: seq<Directive>, f: Fields, n: nat, v: int)
    requires 1 <= f.month <= 12 && 1 <= f.day <= 31
    requires fmt != [] && !fmt[0].Lit? && !fmt[0].Spaces?
    requires n <= |s| && FieldSpan(s, fmt[1..]) == n && FieldValue(fmt[0], s[..n]) == Some(v)
    ensures 1 <= Store(f, fmt[0], v).month <= 12 && 1 <= Store(f, fmt[0], v).day <= 31
    ensures MatchFormat(s, fmt, f) == MatchFormat(s[n..], fmt[1..], Store(f, fmt[0], v))
  {
  }

  lemma FieldValues(t: string)
    ensures DayField(t) ==> AllDigits(t) && FieldValue(DayNum, t) == Some(DigitsValue(t))
    ensures MonthField(t) ==> AllDigits(t) && FieldValue(MonthNum, t) == Some(DigitsValue(t))
    ensures |t| == 4 && AllDigits(t) ==> FieldValue(Year4, t) == Some(DigitsValue(t))
  {
  }

  lemma LastField(dd: string, f: Fields)
    requires 1 <= f.month <= 12 && 1 <= f.day <= 31 && DayField(dd)
    ensures AllDigits(dd) && MatchFormat(dd, [DayNum], f) == Some(f.(day := DigitsValue(dd)))
  {
    FieldValues(dd);
    assert dd[..|dd|] == dd;
    FieldStep(dd, [DayNum], f, |dd|, DigitsValue(dd));
    assert dd[|dd|..] == [];
  }

  lemma SeparatedField(t: string, rest: string, d: Directive, tail: seq<Directive>, f: Fields, v: int)
    requires 1 <= f.month <= 12 && 1 <= f.day <= 31
    requires !d.Lit? && !d.Spaces? && '-' !in t && FieldValue(d, t) == Some(v)
    ensures 1 <= Store(f, d, v).month <= 12 && 1 <= Store(f, d, v).day <= 31
    ensures MatchFormat(t + ("-" + rest), [d, Lit('-')] + tail, f) == MatchFormat(rest, tail, Store(f, d, v))
  {
    var s := t + ("-" + rest);
    var fmt := [d, Lit('-')] + tail;
    assert s[..|t|] == t;
    IndexOfAt(s, '-', |t|);
    FieldStep(s, fmt, f, |t|, v);
    assert s[|t|..][1..] == rest;
    assert fmt[1..][1..] == tail;
    LitStep(s[|t|..], fmt[1..], Store(f, d, v));
  }

  /** The month and day half of the ISO format. */
  lemma IsoMonthDay(m: string, dd: string, f: Fields)
    requires 1 <= f.month <= 12 && 1 <= f.day <= 31 && MonthField(m) && DayField(dd)
    ensures AllDigits(m) && AllDigits(dd)
    ensures MatchFormat(m + ("-" + dd), [MonthNum, Lit('-'), DayNum], f)
              == Some(f.(month := DigitsValue(m), day := DigitsValue(dd)))
  {
    FieldValues(m);
    FieldValues(dd);
    var tail: seq<Directive> := [DayNum];
    assert [MonthNum, Lit('-'), DayNum] == [MonthNum, Lit('-')] + tail;
    assert '-' !in m;
    SeparatedField(m, dd, MonthNum, tail, f, DigitsValue(m));
    LastField(dd, Store(f, MonthNum, DigitsValue(m)));
  }

  /** The ISO format reads a year, a month and a day field separated by dashes. */
  lemma IsoFields(y: string, m: string, dd: string)
    requires |y| == 4 && AllDigits(y) && MonthField(m) && DayField(dd)
    ensures AllDigits(m) && AllDigits(dd)
    ensures MatchFormat(y + ("-" + (m + ("-" + dd))), IsoDate, Fields(None, 1, 1))
              == Some(Fields(Some(DigitsValue(y)), DigitsValue(m), DigitsValue(dd)))
  {
    FieldValues(y);
    var f0 := Fields(None, 1, 1);
    var f1 := Store(f0, Year4, DigitsValue(y));
    var mid: seq<Directive> := [MonthNum, Lit('-'), DayNum];
    assert IsoDate == [Year4, Lit('-')] + mid;
    assert '-' !in y;
    SeparatedField(y, m + ("-" + dd), Year4, mid, f0, DigitsValue(y));
    IsoMonthDay(m, dd, f1);
  }

  /** Every representable date, written in ISO form, parses back to itself. */
  lemma IsoRoundTrip(d: Date)
    requires InRange(d)
    ensures Strptime(IsoFormat(d), IsoDate) == Some(d)
  {
    MonthFieldPad2(d.month);
    DayFieldPad2(d.day);
    IsoFields(Pad4(d.year), Pad2(d.month), Pad2(d.day));
    Pad4Value(d.year);
    Pad2Value(d.month);
    Pad2Value(d.day);
  }

  lemma StrptimeTimeFields(h: string, m: string)
    requires HourField(h) && MinuteField(m)
    ensures AllDigits(h) && AllDigits(m)
    ensures StrptimeTime(h + ":" + m) == Some(Time(DigitsValue(h), DigitsValue(m)))
  {
    var s := h + ":" + m;
    assert s[..|h|] == h && s[|h| + 1..] == m;
    IndexOfAt(s, ':', |h|);
  }

  /** Every valid clock time, written as `HH:MM`, parses back to itself with `%H:%M`. */
  lemma HourMinuteRoundTrip(hour: nat, minute: nat)
    requires ValidTime(Time(hour, minute))
    ensures StrptimeTime(FormatTime24h(hour, minute)) == Some(Time(hour, minute))
  {
    Pad2Chars(hour);
    Pad2Chars(minute);
    StrptimeTimeFields(Pad2(hour), Pad2(minute));
    Pad2Value(hour);
    Pad2Value(minute);
  }

  lemma Format24hRoundTrip(hour: nat, minute: nat)
    requires ValidTime(Time(hour, minute))
    ensures ParseTime(FormatTime24h(hour, minute)) == Some(Time(hour, minute))
  {
    var s := FormatTime24h(hour, minute);
    Match24hOfFormat(hour, minute);
    ParseTimeNumeric(s);
    ParseClock24h(s);
  }

  lemma Match24hOfFormat(hour: nat, minute: nat)
    requires ValidTime(Time(hour, minute))
    ensures var s := FormatTime24h(hour, minute);
      s != [] && IsDigit(s[0]) && !IsSpace(s[|s| - 1]) && NoCapitals(s)
      && Match24h(s) == Some(Clock(hour, minute, None))
  {
    var s := FormatTime24h(hour, minute);
    assert |s| == 5 && s[..2] == Pad2(hour) && s[2] == ':' && s[3..] == Pad2(minute);
    LeadingDigitsExact(s, 2);
    Pad2Value(hour);
    Pad2Value(minute);
  }

  /** Input that starts with a digit, has no capitals and no surrounding whitespace goes to the numeric patterns. */
  lemma ParseTimeNumeric(s: string)
    requires s != [] && IsDigit(s[0]) && !IsSpace(s[|s| - 1]) && NoCapitals(s)
    ensures ParseTime(s) == ParseClock(s)
  {
    LowerIdentity(s);
    StripIdentity(s);
    NotTimeExpression(s);
  }

  lemma ParseClock24h(e: string)
    requires Match24h(e).Some? && ValidTime(Time(Match24h(e).value.hour, Match24h(e).value.minute))
    ensures ParseClock(e) == Some(Time(Match24h(e).value.hour, Match24h(e).value.minute))
  {
  }

  /** A string starting with a digit is none of the named times. */
  lemma NotTimeExpression(s: string)
    requires s != [] && IsDigit(s[0])
    ensures s !in TimeExpressions
  {
  }

  lemma LowerAppend(a: string, b: string)
    ensures Lower(a + b) == Lower(a) + Lower(b)
  {
  }

  /** A rendered hour of at most two digits, followed by a non-digit, is the hour group of every clock pattern. */
  lemma HourPrefix(k: nat, rest: string)
    requires k < 100 && (rest == [] || !IsDigit(rest[0]))
    ensures var e := NatToString(k) + rest;
      HourDigits(e) == Some(|NatToString(k)|) && e[..|NatToString(k)|] == NatToString(k)
      && e[|NatToString(k)|..] == rest && DigitsValue(e[..|NatToString(k)|]) == k
  {
    var d := NatToString(k);
    var e := d + rest;
    assert e[..|d|] == d && e[|d|..] == rest;
    LeadingDigitsExact(e, |d|);
    if k >= 10 { NatToStringLength2(k); }
    NatToStringValue(k);
  }

  /** A rendered hour of three or more digits matches no clock pattern's hour group. */
  lemma LongHourPrefix(k: nat, rest: string)
    requires k >= 100 && (rest == [] || !IsDigit(rest[0]))
    ensures HourDigits(NatToString(k) + rest).None?
  {
    var d := NatToString(k);
    assert |d| >= 3 by { NatToStringLength2(k / 10); }
    LeadingDigitsExact(d + rest, |d|);
  }

  lemma SpaceThen(rest: string)
    requires rest != [] && !IsSpace(rest[0])
    ensures SkipSpaces(" " + rest) == rest && LeadingSpaces(" " + rest) == 1
  {
    LeadingSpacesExact(" " + rest, 1);
  }

  /** The pattern results on "<k> <period>". */
  lemma HourPeriodMatches(k: nat, p: string)
    requires k < 100 && PeriodOf(p).Some?
    ensures var e := NatToString(k) + (" " + p);
      Match24h(e).None? && Match12hMinutes(e).None? && Match12h(e) == Some(Clock(k, 0, PeriodOf(p)))
      && MatchHour(e).None? && MatchOclock(e).None?
  {
    var e := NatToString(k) + (" " + p);
    HourPrefix(k, " " + p);
    SpaceThen(p);
    var n := |NatToString(k)|;
    assert e[n] == ' ';
    assert SkipSpaces(e[n..]) == p;
  }

  lemma AfterWordFirst(s: string, w: string)
    ensures AfterWord(s, w).Some? && w != [] ==> s != [] && s[0] == w[0]
  {
    if AfterWord(s, w).Some? && w != [] {
      assert s[..|w|][0] == w[0];
    }
  }

  lemma DigitStartIsNumeric(e: string)
    requires e != [] && IsDigit(e[0])
    ensures MatchPhrase(e, "half", "past").None? && MatchPhrase(e, "quarter", "past").None?
    ensures MatchPhrase(e, "quarter", "to").None?
  {
    AfterWordFirst(e, "half");
    AfterWordFirst(e, "quarter");
  }

  /**
   * "<k> am" and "<k> pm" (or "a.m."/"p.m.") read as a 12-hour clock: 12 am is
   * midnight, 12 pm is noon, pm adds twelve hours; an hour outside 1-12 is refused.
   */
  lemma TwelveHourClock(k: nat, p: string)
    requires p in ["am", "pm", "a.m.", "p.m."]
    ensures ParseTime(NatToString(k) + (" " + p)) ==
              if 1 <= k <= 12 then Some(Time(if p[0] == 'p' then k % 12 + 12 else k % 12, 0)) else None
  {
    NumericPeriod(k, p);
    if k < 100 {
      TwelveHourPattern(k, p);
      if 1 <= k <= 12 {
        PeriodHour(k, p);
      }
    } else {
      var e := NatToString(k) + (" " + p);
      DigitStartIsNumeric(e);
      LongHourPrefix(k, " " + p);
      NoClockPattern(e);
    }
  }

  lemma TwelveHourPattern(k: nat, p: string)
    requires p in ["am", "pm", "a.m.", "p.m."] && k < 100
    ensures var e := NatToString(k) + (" " + p);
      ParseClock(e) == if 1 <= k <= 12 then Some(Time(ApplyOptionalPeriod(k, PeriodOf(p)), 0)) else None
  {
    var e := NatToString(k) + (" " + p);
    assert e != [] && IsDigit(e[0]) by { NumericPeriod(k, p); }
    DigitStartIsNumeric(e);
    HourPeriodMatches(k, p);
    OnlyTwelveHour(e, Clock(k, 0, PeriodOf(p)));
  }

  /** When only the 12-hour pattern matches, it decides the time. */
  lemma OnlyTwelveHour(e: string, c: Clock)
    requires Match24h(e).None? && Match12hMinutes(e).None? && Match12h(e) == Some(c)
    requires MatchHour(e).None? && MatchOclock(e).None?
    requires MatchPhrase(e, "half", "past").None? && MatchPhrase(e, "quarter", "past").None?
    requires MatchPhrase(e, "quarter", "to").None?
    ensures ParseClock(e) == if 1 <= c.hour <= 12 then Some(Time(ApplyOptionalPeriod(c.hour, c.period), 0)) else None
  {
  }

  /** An hour group that is too long rules out every numeric pattern. */
  lemma NoClockPattern(e: string)
    requires HourDigits(e).None?
    requires MatchPhrase(e, "half", "past").None? && MatchPhrase(e, "quarter", "past").None?
    requires MatchPhrase(e, "quarter", "to").None?
    ensures ParseClock(e).None?
  {
  }

  lemma NumericPeriod(k: nat, p: string)
    requires p in ["am", "pm", "a.m.", "p.m."]
    ensures var e := NatToString(k) + (" " + p);
      e != [] && IsDigit(e[0]) && ParseTime(e) == ParseClock(e)
  {
    var e := NatToString(k) + (" " + p);
    PeriodShape(k, p);
    ParseTimeNumeric(e);
  }

  lemma PeriodShape(k: nat, p: string)
    requires p in ["am", "pm", "a.m.", "p.m."]
    ensures var e := NatToString(k) + (" " + p);
      e != [] && IsDigit(e[0]) && !IsSpace(e[|e| - 1]) && NoCapitals(e)
  {
    var e := NatToString(k) + (" " + p);
    assert e[|e| - 1] == p[|p| - 1];
    assert NoCapitals(" " + p);
    DigitsNoCapitals(NatToString(k));
    NoCapitalsConcat(NatToString(k), " " + p);
  }

  lemma PeriodHour(k: nat, p: string)
    requires p in ["am", "pm", "a.m.", "p.m."] && 1 <= k <= 12
    ensures PeriodOf(p).Some?
    ensures ApplyOptionalPeriod(k, PeriodOf(p)) == if p[0] == 'p' then k % 12 + 12 else k % 12
  {
  }

  /** A bare number of up to 23 is an hour on the clock, 1-9 read as evening hours; anything else is refused. */
  lemma BareHour(k: nat)
    ensures ParseTime(NatToString(k)) == if k <= 23 then Some(Time(if 1 <= k <= 9 then k + 12 else k, 0)) else None
  {
    var e := NatToString(k);
    DigitsNoCapitals(e);
    ParseTimeNumeric(e);
    if k < 100 {
      BareHourPattern(k);
    } else {
      DigitStartIsNumeric(e);
      LongHourPrefix(k, []);
      assert e + [] == e;
      NoClockPattern(e);
    }
  }

  lemma BareHourPattern(k: nat)
    requires k < 100
    ensures ParseClock(NatToString(k)) == if k <= 23 then Some(Time(if 1 <= k <= 9 then k + 12 else k, 0)) else None
  {
    var e := NatToString(k);
    BareHourMatches(k);
    OnlyBareHour(e, Clock(k, 0, None));
  }

  lemma BareHourMatches(k: nat)
    requires k < 100
    ensures var e := NatToString(k);
      Match24h(e).None? && Match12hMinutes(e).None? && Match12h(e).None?
      && MatchHour(e) == Some(Clock(k, 0, None)) && MatchOclock(e).None?
      && MatchPhrase(e, "half", "past").None? && MatchPhrase(e, "quarter", "past").None?
      && MatchPhrase(e, "quarter", "to").None?
  {
    var e := NatToString(k);
    DigitStartIsNumeric(e);
    HourPrefix(k, []);
    assert e + [] == e;
  }

  /** When only the bare-hour pattern matches, it decides the time. */
  lemma OnlyBareHour(e: string, c: Clock)
    requires Match24h(e).None? && Match12hMinutes(e).None? && Match12h(e).None?
    requires MatchHour(e) == Some(c) && MatchOclock(e).None?
    requires MatchPhrase(e, "half", "past").None? && MatchPhrase(e, "quarter", "past").None?
    requires MatchPhrase(e, "quarter", "to").None?
    ensures ParseClock(e) == if 0 <= c.hour <= 23 then Some(Time(if 1 <= c.hour <= 9 then c.hour + 12 else c.hour, 0)) else None
  {
    var r := FirstClock(None, None, None, Some(c), None, None, None, None);
    assert ParseClock(e) == r;
    if 0 <= c.hour <= 23 {
      assert r == Some(Time(if 1 <= c.hour <= 9 then c.hour + 12 else c.hour, 0));
    } else {
      assert r == None;
    }
  }

  /** Every valid time written by `format_time_12h` parses back to itself. */
  lemma Format12hRoundTrip(hour: nat, minute: nat)
    requires ValidTime(Time(hour, minute))
    ensures ParseTime(FormatTime12h(hour, minute)) == Some(Time(hour, minute))
  {
    var s := FormatTime12h(hour, minute);
    var p := if hour < 12 then "am" else "pm";
    var display := if hour % 12 == 0 then 12 else hour % 12;
    ParseTimeLower(s);
    Format12hLower(hour, minute, p);
    DisplayHour(hour);
    if minute == 0 {
      Format12hOnTheHour(hour, display, p);
    } else {
      Format12hWithMinutes(hour, display, minute, p);
    }
  }

  lemma Format12hOnTheHour(hour: nat, display: nat, p: string)
    requires hour <= 23 && 1 <= display <= 12 && (p == "am" || p == "pm")
    requires (hour < 12 ==> display % 12 == hour && p == "am") && (hour >= 12 ==> display % 12 + 12 == hour && p == "pm")
    ensures ParseTime(NatToString(display) + (" " + p)) == Some(Time(hour, 0))
  {
    assert p in ["am", "pm", "a.m.", "p.m."];
    assert (if p[0] == 'p' then display % 12 + 12 else display % 12) == hour;
    TwelveHourClock(display, p);
  }

  lemma Format12hWithMinutes(hour: nat, display: nat, minute: nat, p: string)
    requires hour <= 23 && 1 <= display <= 12 && 1 <= minute <= 59 && (p == "am" || p == "pm")
    requires (hour < 12 ==> display % 12 == hour && p == "am") && (hour >= 12 ==> display % 12 + 12 == hour && p == "pm")
    ensures ParseTime(NatToString(display) + (":" + (Pad2(minute) + (" " + p)))) == Some(Time(hour, minute))
  {
    assert (if p == "pm" then display % 12 + 12 else display % 12) == hour;
    MinutesClock(display, minute, p);
  }

  /** A negative hour is shown as the morning hour it is congruent to modulo 12. */
  lemma Format12hNegativeHour(hour: int, minute: int)
    requires hour < 0
    ensures 0 <= hour % 12 < 12 && FormatTime12h(hour, minute) == FormatTime12h(hour % 12, minute)
  {
    assert (hour % 12) % 12 == hour % 12;
  }

  /** The hour shown by `format_time_12h` and its period give back the hour of the day. */
  lemma DisplayHour(hour: nat)
    requires hour <= 23
    ensures var display := if hour % 12 == 0 then 12 else hour % 12;
      1 <= display <= 12 && (hour < 12 ==> display % 12 == hour) && (hour >= 12 ==> display % 12 + 12 == hour)
  {
  }

  /** Case does not matter to `parse_time`. */
  lemma ParseTimeLower(s: string)
    ensures ParseTime(s) == ParseTime(Lower(s))
  {
    assert Lower(Lower(s)) == Lower(s);
  }

  /** `format_time_12h` in lower case. */
  lemma Format12hLower(hour: nat, minute: nat, p: string)
    requires p == if hour < 12 then "am" else "pm"
    ensures var d := NatToString(if hour % 12 == 0 then 12 else hour % 12);
      Lower(FormatTime12h(hour, minute)) ==
        if minute == 0 then d + (" " + p) else d + (":" + (Pad2(minute) + (" " + p)))
  {
    var d := NatToString(if hour % 12 == 0 then 12 else hour % 12);
    var period := if hour < 12 then "AM" else "PM";
    DigitsNoCapitals(d);
    LowerIdentity(d);
    assert Lower(" " + period) == " " + p;
    if minute == 0 {
      LowerAppend(d, " " + period);
    } else {
      var mm := Pad2(minute);
      assert NoCapitals(":" + mm);
      LowerIdentity(":" + mm);
      LowerAppend(d, ":" + (mm + (" " + period)));
      LowerAppend(":" + mm, " " + period);
      assert ":" + (mm + (" " + period)) == (":" + mm) + (" " + period);
      assert ":" + (mm + (" " + p)) == (":" + mm) + (" " + p);
    }
  }

  /** "<k>:<mm> am" and "<k>:<mm> pm" read as a 12-hour clock with minutes. */
  lemma MinutesClock(k: nat, minute: nat, p: string)
    requires 1 <= k <= 12 && minute <= 59 && (p == "am" || p == "pm")
    ensures ParseTime(NatToString(k) + (":" + (Pad2(minute) + (" " + p))))
              == Some(Time(if p == "pm" then k % 12 + 12 else k % 12, minute))
  {
    var e := NatToString(k) + (":" + (Pad2(minute) + (" " + p)));
    MinutesShape(k, minute, p);
    ParseTimeNumeric(e);
    MinutesPattern(k, minute, p);
    OnlyTwelveHourMinutes(e, Clock(k, minute, Some(p)));
  }

  lemma MinutesShape(k: nat, minute: nat, p: string)
    requires 1 <= k <= 12 && minute <= 59 && (p == "am" || p == "pm")
    ensures var e := NatToString(k) + (":" + (Pad2(minute) + (" " + p)));
      e != [] && IsDigit(e[0]) && !IsSpace(e[|e| - 1]) && NoCapitals(e)
  {
    var d := NatToString(k);
    var mm := Pad2(minute);
    var e := d + (":" + (mm + (" " + p)));
    assert e[|e| - 1] == 'm';
    assert NoCapitals(" " + p);
    DigitsNoCapitals(mm);
    NoCapitalsConcat(mm, " " + p);
    assert NoCapitals(":" + (mm + (" " + p)));
    DigitsNoCapitals(d);
    NoCapitalsConcat(d, ":" + (mm + (" " + p)));
  }

  lemma MinutesPattern(k: nat, minute: nat, p: string)
    requires 1 <= k <= 12 && minute <= 59 && (p == "am" || p == "pm")
    ensures var e := NatToString(k) + (":" + (Pad2(minute) + (" " + p)));
      Match24h(e).None? && Match12hMinutes(e) == Some(Clock(k, minute, Some(p)))
  {
    var e, n := MinutesLayout(k, minute, p);
    MinutesGroups(e, n, p);
  }

  /** Where the hour ends in "<hour>:<two digits> <period>", and what the groups read. */
  lemma MinutesLayout(k: nat, minute: nat, p: string) returns (e: string, n: nat)
    requires 1 <= k <= 12 && minute <= 59 && (p == "am" || p == "pm")
    ensures e == NatToString(k) + (":" + (Pad2(minute) + (" " + p)))
    ensures && HourDigits(e) == Some(n) && |e| == n + 6 && e[n] == ':' && IsDigit(e[n + 1]) && IsDigit(e[n + 2])
      && PeriodOf(SkipSpaces(e[n + 3..])) == Some(p)
    ensures AllDigits(e[..n]) && AllDigits(e[n + 1..n + 3])
    ensures DigitsValue(e[..n]) == k && DigitsValue(e[n + 1..n + 3]) == minute
  {
    var d := NatToString(k);
    var mm := Pad2(minute);
    var tail := ":" + (mm + (" " + p));
    e := d + tail;
    n := |d|;
    HourPrefix(k, tail);
    assert |tail| == 6 && tail[0] == ':' && tail[1..3] == mm && tail[3..] == " " + p by {
      MinutesTail(mm, p);
    }
    assert e[n..] == tail;
    assert e[n] == ':' && e[n + 1..n + 3] == mm && e[n + 3..] == " " + p by {
      assert e[n..][0] == tail[0];
      assert e[n..][1..3] == tail[1..3];
      assert e[n..][3..] == tail[3..];
    }
    assert IsDigit(e[n + 1]) && IsDigit(e[n + 2]) by {
      assert e[n + 1] == mm[0] && e[n + 2] == mm[1];
    }
    Pad2Value(minute);
    SpaceThen(p);
  }

  /** The shape "<hour>:<two digits> <period>" fails `^(\d{1,2}):(\d{2})$` and matches the 12-hour pattern with minutes. */
  lemma MinutesGroups(e: string, n: nat, p: string)
    requires HourDigits(e) == Some(n) && |e| == n + 6 && e[n] == ':' && IsDigit(e[n + 1]) && IsDigit(e[n + 2])
    requires PeriodOf(SkipSpaces(e[n + 3..])) == Some(p)
    ensures Match24h(e).None?
    ensures Match12hMinutes(e) == Some(Clock(DigitsValue(e[..n]), DigitsValue(e[n + 1..n + 3]), Some(p)))
  {
  }

  lemma MinutesTail(mm: string, p: string)
    requires |mm| == 2 && AllDigits(mm) && |p| == 2
    ensures var t := ":" + (mm + (" " + p));
      |t| == 6 && t[0] == ':' && IsDigit(t[1]) && IsDigit(t[2]) && t[1..3] == mm && t[3..] == " " + p
  {
  }

  /** When the 24-hour pattern fails and the 12-hour pattern with minutes matches in range, the latter decides. */
  lemma OnlyTwelveHourMinutes(e: string, c: Clock)
    requires Match24h(e).None? && Match12hMinutes(e) == Some(c) && 1 <= c.hour <= 12 && 0 <= c.minute <= 59
    ensures ParseClock(e) == Some(Time(ApplyOptionalPeriod(c.hour, c.period), c.minute))
  {
  }

  // ---------------------------------------------------------------------------
  // Phrases

  /** `w` followed by one space and a word that does not start with whitespace. */
  lemma AfterWordSpace(w: string, rest: string)
    requires rest != [] && !IsSpace(rest[0])
    ensures AfterWord(w + (" " + rest), w) == Some(rest)
  {
    var s := w + (" " + rest);
    assert s[..|w|] == w && s[|w|..] == " " + rest;
    SpaceThen(rest);
  }

  /** A rendered hour, alone, is the hour group of `(\d{1,2})\s*(am|pm)?$` when it has at most two digits. */
  lemma HourTailOf(k: nat)
    ensures HourTail(NatToString(k)) == PhraseHour(k)
  {
    var d := NatToString(k);
    assert d + [] == d;
    if k < 100 {
      HourPrefix(k, []);
      assert d[|d|..] == [];
    } else {
      LongHourPrefix(k, []);
    }
  }

  /** A phrase starting with a letter matches none of the numeric patterns. */
  lemma LetterStart(e: string)
    requires e != [] && !IsDigit(e[0])
    ensures HourDigits(e).None?
    ensures Match24h(e).None? && Match12hMinutes(e).None? && Match12h(e).None? && MatchHour(e).None? && MatchOclock(e).None?
  {
  }

  /** The phrase patterns: `w1 w2 <k>` with the hour groups of the given hour. */
  lemma PhraseOf(w1: string, w2: string, k: nat)
    requires w2 != [] && !IsSpace(w2[0])
    ensures MatchPhrase(w1 + (" " + (w2 + (" " + NatToString(k)))), w1, w2) == HourTail(NatToString(k))
  {
    var d := NatToString(k);
    AfterWordSpace(w1, w2 + (" " + d));
    AfterWordSpace(w2, d);
  }

  /** The hour group of a phrase, as `HourTailOf` gives it for the hour `k`. */
  function PhraseHour(k: nat): Option<Clock>
  {
    if k < 100 then Some(Clock(k, 0, None)) else None
  }

  /** When only "half past" has matched, with the hour `k` and no period. */
  lemma HalfPastBranch(k: nat, qpast: Option<Clock>, qto: Option<Clock>)
    ensures FirstClock(None, None, None, None, None, PhraseHour(k), qpast, qto) ==
      if 1 <= k <= 12 then Some(Time(k % 12 + 12, 30)) else if qpast.None? && qto.None? then None
      else FirstClock(None, None, None, None, None, None, qpast, qto)
  {
  }

  /** When only "quarter past" has matched. */
  lemma QuarterPastBranch(k: nat, qto: Option<Clock>)
    ensures FirstClock(None, None, None, None, None, None, PhraseHour(k), qto) ==
      if 1 <= k <= 12 then Some(Time(k % 12 + 12, 15)) else if qto.None? then None
      else FirstClock(None, None, None, None, None, None, None, qto)
  {
  }

  /** When only "quarter to" has matched. */
  lemma QuarterToBranch(k: nat)
    ensures FirstClock(None, None, None, None, None, None, None, PhraseHour(k)) ==
      if 1 <= k <= 12 then Some(Time(if k == 12 then 11 else k + 11, 45)) else None
  {
  }

  lemma HalfPastClock(k: nat)
    ensures var e := "half" + (" " + ("past" + (" " + NatToString(k))));
      ParseClock(e) == if 1 <= k <= 12 then Some(Time(k % 12 + 12, 30)) else None
  {
    var d := NatToString(k);
    var e := "half" + (" " + ("past" + (" " + d)));
    PhraseOf("half", "past", k);
    HourTailOf(k);
    AfterWordFirst(e, "quarter");
    LetterStart(e);
    HalfPastBranch(k, None, None);
  }

  /** "half past <k>": thirty minutes past hour `k`, read as afternoon or evening; out-of-range hours are refused. */
  lemma HalfPast(k: nat)
    ensures ParseTime("half past " + NatToString(k)) == if 1 <= k <= 12 then Some(Time(k % 12 + 12, 30)) else None
  {
    var d := NatToString(k);
    var e := "half" + (" " + ("past" + (" " + d)));
    assert e == "half past " + d;
    PhraseShape(e, d);
    HalfPastClock(k);
  }

  lemma QuarterPastClock(k: nat)
    ensures var e := "quarter" + (" " + ("past" + (" " + NatToString(k))));
      ParseClock(e) == if 1 <= k <= 12 then Some(Time(k % 12 + 12, 15)) else None
  {
    var d := NatToString(k);
    var e := "quarter" + (" " + ("past" + (" " + d)));
    PhraseOf("quarter", "past", k);
    HourTailOf(k);
    AfterWordFirst(e, "half");
    AfterWordSpace("quarter", "past" + (" " + d));
    AfterWordFirst("past" + (" " + d), "to");
    LetterStart(e);
    QuarterPastBranch(k, None);
  }

  /** "quarter past <k>": fifteen minutes past hour `k`, read as afternoon or evening. */
  lemma QuarterPast(k: nat)
    ensures ParseTime("quarter past " + NatToString(k)) == if 1 <= k <= 12 then Some(Time(k % 12 + 12, 15)) else None
  {
    var d := NatToString(k);
    var e := "quarter" + (" " + ("past" + (" " + d)));
    assert e == "quarter past " + d;
    PhraseShape(e, d);
    QuarterPastClock(k);
  }

  lemma QuarterToClock(k: nat)
    ensures var e := "quarter" + (" " + ("to" + (" " + NatToString(k))));
      ParseClock(e) == if 1 <= k <= 12 then Some(Time(if k == 12 then 11 else k + 11, 45)) else None
  {
    var d := NatToString(k);
    var e := "quarter" + (" " + ("to" + (" " + d)));
    PhraseOf("quarter", "to", k);
    HourTailOf(k);
    AfterWordFirst(e, "half");
    AfterWordSpace("quarter", "to" + (" " + d));
    AfterWordFirst("to" + (" " + d), "past");
    LetterStart(e);
    QuarterToBranch(k);
  }

  /** "quarter to <k>": fifteen minutes before hour `k` (read as afternoon or evening), so 45 past the hour before. */
  lemma QuarterTo(k: nat)
    ensures ParseTime("quarter to " + NatToString(k)) == if 1 <= k <= 12 then Some(Time(if k == 12 then 11 else k + 11, 45)) else None
  {
    var d := NatToString(k);
    var e := "quarter" + (" " + ("to" + (" " + d)));
    assert e == "quarter to " + d;
    PhraseShape(e, d);
    QuarterToClock(k);
  }

  /**
   * "quarter to <k> am" and "quarter to <k> pm": 45 past the hour before the 12-hour
   * reading of `k`; before midnight ("quarter to 12 am") the hour wraps to 23.
   */
  lemma QuarterToPeriod(k: nat, p: string)
    requires p == "am" || p == "pm"
    ensures ParseTime("quarter to " + NatToString(k) + " " + p) ==
      if 1 <= k <= 12 then
        var h := if p == "pm" then k % 12 + 12 else k % 12;
        Some(Time(if h == 0 then 23 else h - 1, 45))
      else None
  {
    var e := QuarterToPeriodText(k, p);
    PeriodPhraseShape(e);
    QuarterToPeriodClock(k, p);
  }

  /** The two spellings of "quarter to <k> <period>", and the shape `parse_time` reads as it is. */
  lemma QuarterToPeriodText(k: nat, p: string) returns (e: string)
    requires p == "am" || p == "pm"
    ensures e == "quarter" + (" " + ("to" + (" " + (NatToString(k) + (" " + p)))))
    ensures e == "quarter to " + NatToString(k) + " " + p
    ensures |e| > 11 && 'a' <= e[0] <= 'z' && e[|e| - 1] == 'm' && NoCapitals(e)
  {
    var d := NatToString(k);
    var t := d + (" " + p);
    e := "quarter" + (" " + ("to" + (" " + t)));
    assert e == "quarter to " + t;
    assert e == "quarter to " + NatToString(k) + " " + p;
    assert e[|e| - 1] == p[1];
    DigitsNoCapitals(d);
    NoCapitalsConcat(d, " " + p);
    NoCapitalsConcat("quarter to ", t);
  }

  lemma QuarterToPeriodClock(k: nat, p: string)
    requires p == "am" || p == "pm"
    ensures var e := "quarter" + (" " + ("to" + (" " + (NatToString(k) + (" " + p)))));
      ParseClock(e) ==
        if 1 <= k <= 12 then
          var h := if p == "pm" then k % 12 + 12 else k % 12;
          Some(Time(if h == 0 then 23 else h - 1, 45))
        else None
  {
    var t := NatToString(k) + (" " + p);
    var e := "quarter" + (" " + ("to" + (" " + t)));
    PhraseTail("quarter", "to", t);
    HourTailPeriod(k, p);
    AfterWordFirst(e, "half");
    AfterWordSpace("quarter", "to" + (" " + t));
    AfterWordFirst("to" + (" " + t), "past");
    LetterStart(e);
    if k < 100 {
      QuarterToPeriodBranch(k, p);
    }
  }

  /** When only "quarter to" has matched, with the hour `k` and a period. */
  lemma QuarterToPeriodBranch(k: nat, p: string)
    requires p == "am" || p == "pm"
    ensures FirstClock(None, None, None, None, None, None, None, Some(Clock(k, 0, Some(p)))) ==
      if 1 <= k <= 12 then
        var h := if p == "pm" then k % 12 + 12 else k % 12;
        Some(Time(if h == 0 then 23 else h - 1, 45))
      else None
  {
  }

  /** The example of the wrap: a quarter to midnight is 23:45. */
  lemma QuarterToMidnight(e: string)
    requires e == "quarter to 12 am"
    ensures ParseTime(e) == Some(Time(23, 45))
  {
    NatToStringTwelve();
    MidnightSpelling(e);
    QuarterToTwelveAm(e);
  }

  lemma MidnightSpelling(e: string)
    requires e == "quarter to 12 am"
    ensures e == "quarter to " + "12" + " " + "am"
  {
  }

  lemma QuarterToTwelveAm(e: string)
    requires e == "quarter to " + NatToString(12) + " " + "am"
    ensures ParseTime(e) == Some(Time(23, 45))
  {
    QuarterToPeriod(12, "am");
  }

  lemma NatToStringTwelve()
    ensures NatToString(12) == "12"
  {
  }

  /** `w1 w2 <t>`: the phrase pattern reads the hour group from `t`. */
  lemma PhraseTail(w1: string, w2: string, t: string)
    requires w2 != [] && !IsSpace(w2[0]) && t != [] && !IsSpace(t[0])
    ensures MatchPhrase(w1 + (" " + (w2 + (" " + t))), w1, w2) == HourTail(t)
  {
    AfterWordSpace(w1, w2 + (" " + t));
    AfterWordSpace(w2, t);
  }

  /** "<k> <period>" is the hour group with its period when `k` has at most two digits. */
  lemma HourTailPeriod(k: nat, p: string)
    requires p == "am" || p == "pm"
    ensures HourTail(NatToString(k) + (" " + p)) == if k < 100 then Some(Clock(k, 0, Some(p))) else None
  {
    if k < 100 {
      HourPrefix(k, " " + p);
      SpaceThen(p);
      var n := |NatToString(k)|;
      assert (NatToString(k) + (" " + p))[n..] == " " + p;
    } else {
      LongHourPrefix(k, " " + p);
    }
  }

  /** A lower-case phrase ending in a period is read as it is. */
  lemma PeriodPhraseShape(e: string)
    requires |e| > 11 && 'a' <= e[0] <= 'z' && e[|e| - 1] == 'm' && NoCapitals(e)
    ensures ParseTime(e) == ParseClock(e)
  {
    LowerIdentity(e);
    StripIdentity(e);
    assert e !in TimeExpressions;
  }

  /** A lower-case phrase ending in a rendered number is not one of the named times and is read as it is. */
  lemma PhraseShape(e: string, d: string)
    requires |e| > |d| && AllDigits(d) && d != [] && e[|e| - |d|..] == d && 'a' <= e[0] <= 'z'
    requires NoCapitals(e)
    ensures ParseTime(e) == ParseClock(e)
  {
    assert e[|e| - 1] == d[|d| - 1];
    LowerIdentity(e);
    StripIdentity(e);
    NotTimeExpressionEnd(e);
  }

  /** A string ending in a digit is none of the named times. */
  lemma NotTimeExpressionEnd(s: string)
    requires s != [] && IsDigit(s[|s| - 1])
    ensures s !in TimeExpressions
  {
  }

  // ---------------------------------------------------------------------------
  // Relative dates

  /** Lower-case input without surrounding whitespace is read as it is. */
  lemma RelativeDateNormal(s: string, ref: Date)
    requires Valid(ref) && s != [] && !IsSpace(s[0]) && !IsSpace(s[|s| - 1]) && NoCapitals(s)
    ensures ParseRelativeDate(s, ref) == RelativeDate(s, ref)
  {
    LowerIdentity(s);
    StripIdentity(s);
  }

  /** A word is not followed by whitespace in a string that has none. */
  lemma NoSpaceAfterWord(s: string, w: string)
    requires forall i :: 0 <= i < |s| ==> !IsSpace(s[i])
    ensures AfterWord(s, w).None?
  {
    if |w| < |s| {
      assert s[|w|..][0] == s[|w|];
    }
  }

  /** Going ahead to weekday `target`, plus `extra` days, from `ref`. */
  lemma Ahead(ref: Date, target: int, extra: int, n: int)
    requires Valid(ref) && 0 <= target < 7 && (extra == 0 || extra == 7)
    requires n == DaysAhead(target, Weekday(ref)) + extra
    ensures var r := AddDays(ref, n);
      Weekday(r) == target && Ordinal(ref) + extra < Ordinal(r) <= Ordinal(ref) + extra + 7
  {
    var c := Weekday(ref);
    var d := DaysAhead(target, c);
    assert (c + n) % 7 == target by {
      assert c + n == (c + d) + extra;
      assert ((c + d) + extra) % 7 == (c + d) % 7;
    }
    AddDaysOrdinal(ref, n);
    AddDaysWeekday(ref, n);
  }

  /** When the relative branches yield the offset `n`, the result is `n` days after the reference date. */
  lemma RelativeAt(e: string, ref: Date, n: int)
    requires Valid(ref)
    requires RelativeOffset(FixedOffset(e), MatchInDays(e), WeekdayAfter(e, "this"), WeekdayAfter(e, "next"),
                            WeekdayNumber(e), Weekday(ref)) == Some(n)
    ensures RelativeDate(e, ref) == Some(AddDays(ref, n))
  {
  }

  /** When no relative branch applies, the `strptime` formats decide. */
  lemma RelativeNone(e: string, ref: Date)
    requires Valid(ref)
    requires RelativeOffset(FixedOffset(e), MatchInDays(e), WeekdayAfter(e, "this"), WeekdayAfter(e, "next"),
                            WeekdayNumber(e), Weekday(ref)).None?
    ensures RelativeDate(e, ref) == FirstFormat(e, DateFormats, ref)
  {
  }

  lemma WeekdayNoPatterns(w: string)
    requires WeekdayNumber(w).Some?
    ensures MatchInDays(w).None? && WeekdayAfter(w, "this").None? && WeekdayAfter(w, "next").None?
  {
    WeekdayName(w);
    NoSpaceAfterWord(w, "in");
    NoSpaceAfterWord(w, "this");
    NoSpaceAfterWord(w, "next");
  }

  lemma BareOffset(w: string, ref: Date, n: int)
    requires WeekdayNumber(w).Some? && Valid(ref) && n == DaysAhead(WeekdayNumber(w).value, Weekday(ref))
    ensures RelativeOffset(FixedOffset(w), MatchInDays(w), WeekdayAfter(w, "this"), WeekdayAfter(w, "next"),
                           WeekdayNumber(w), Weekday(ref)) == Some(n)
  {
    WeekdayName(w);
    WeekdayNoPatterns(w);
  }

  /** A bare weekday name is the next such day strictly after the reference date, at most a week ahead. */
  lemma BareWeekday(w: string, ref: Date)
    requires WeekdayNumber(w).Some? && Valid(ref)
    ensures var r := ParseRelativeDate(w, ref);
      r.Some? && Weekday(r.value) == WeekdayNumber(w).value && Ordinal(ref) < Ordinal(r.value) <= Ordinal(ref) + 7
  {
    var n := DaysAhead(WeekdayNumber(w).value, Weekday(ref));
    WeekdayName(w);
    assert NoCapitals(w);
    RelativeDateNormal(w, ref);
    BareOffset(w, ref, n);
    RelativeAt(w, ref, n);
    Ahead(ref, WeekdayNumber(w).value, 0, n);
  }

  /** The word captured after a keyword is the whole run of word characters that follows it. */
  lemma WordAfterOf(e: string, kw: string, w: string)
    requires AfterWord(e, kw) == Some(w) && w != [] && forall i :: 0 <= i < |w| ==> 'a' <= w[i] <= 'z'
    ensures MatchWordAfter(e, kw) == Some(w)
  {
    LeadingWordCharsExact(w, |w|);
    assert w[..|w|] == w;
  }

  /** "<kw> <weekday>" names that weekday after the keyword. */
  lemma KeywordAfter(kw: string, w: string)
    requires WeekdayNumber(w).Some?
    ensures WeekdayAfter(kw + (" " + w), kw) == WeekdayNumber(w)
  {
    WeekdayName(w);
    AfterWordSpace(kw, w);
    WordAfterOf(kw + (" " + w), kw, w);
  }

  /** "<kw> <weekday>" is already lower case and stripped. */
  lemma KeywordShape(kw: string, w: string)
    requires kw != [] && WeekdayNumber(w).Some?
    requires forall i :: 0 <= i < |kw| ==> 'a' <= kw[i] <= 'z'
    ensures var e := kw + (" " + w);
      e != [] && !IsSpace(e[0]) && !IsSpace(e[|e| - 1]) && NoCapitals(e) && e[0] == kw[0]
  {
    WeekdayName(w);
    var e := kw + (" " + w);
    assert e[|e| - 1] == w[|w| - 1];
    assert NoCapitals(" " + w);
    NoCapitalsConcat(kw, " " + w);
  }

  /** "this" or "next" with a weekday is none of the fixed words. */
  lemma KeywordNotFixed(kw: string, w: string)
    requires kw == "this" || kw == "next"
    requires WeekdayNumber(w).Some?
    ensures FixedOffset(kw + (" " + w)).None?
  {
    WeekdayName(w);
    var e := kw + (" " + w);
    assert |e| >= 8 && e[4] == ' ' && e[5..] == w;
    FixedWordsShape(e);
    assert "this evening"[5..] == "evening";
  }

  /** Of the fixed words, only "this evening" is eight or more characters long with a space at position 4. */
  lemma FixedWordsShape(e: string)
    ensures FixedOffset(e).Some? && |e| >= 8 && e[4] == ' ' ==> e == "this evening"
  {
    if FixedOffset(e).Some? && |e| >= 8 && e[4] == ' ' {
      LookupFound(FixedWords, e);
      var k :| 0 <= k < |FixedWords| && FixedWords[k].0 == e;
      if k != 2 {
        FixedWordsSpaced(k);
      }
    }
  }

  /** Every fixed word other than "this evening" is short or has no space at position 4. */
  lemma FixedWordsSpaced(k: nat)
    requires k < |FixedWords| && k != 2
    ensures |FixedWords[k].0| < 8 || FixedWords[k].0[4] != ' '
  {
    if k == 3 { assert FixedWords[k].0[4] == 'r'; }
    else if k == 6 { assert FixedWords[k].0[4] == 'a'; }
    else if k == 7 { assert FixedWords[k].0[4] == 'm'; }
    else if k == 8 { assert FixedWords[k].0[4] == 'e'; }
  }

  /** A keyword phrase is not itself a weekday name: weekday names have no space. */
  lemma KeywordNotBare(kw: string, w: string)
    requires WeekdayNumber(w).Some?
    ensures WeekdayNumber(kw + (" " + w)).None?
  {
    WeekdayName(w);
    var e := kw + (" " + w);
    assert e[|kw|] == ' ';
    WeekdayName(e);
  }

  /** The branch for "this <weekday>" comes after the fixed words and "in <n> days". */
  lemma ThisBranch(fixed: Option<int>, inDays: Option<nat>, thisDay: Option<int>, nextDay: Option<int>,
                   bare: Option<int>, current: int)
    requires 0 <= current < 7 && fixed.None? && inDays.None? && thisDay.Some? && 0 <= thisDay.value < 7
    requires nextDay.Some? ==> 0 <= nextDay.value < 7
    requires bare.Some? ==> 0 <= bare.value < 7
    ensures RelativeOffset(fixed, inDays, thisDay, nextDay, bare, current) == Some(DaysAhead(thisDay.value, current))
  {
  }

  lemma ThisOffset(w: string, ref: Date, n: int)
    requires WeekdayNumber(w).Some? && Valid(ref) && n == DaysAhead(WeekdayNumber(w).value, Weekday(ref))
    ensures var e := "this" + (" " + w);
      RelativeOffset(FixedOffset(e), MatchInDays(e), WeekdayAfter(e, "this"), WeekdayAfter(e, "next"),
                     WeekdayNumber(e), Weekday(ref)) == Some(n)
  {
    var e := "this" + (" " + w);
    assert e[0] == 't';
    KeywordAfter("this", w);
    AfterWordFirst(e, "in");
    KeywordNotFixed("this", w);
    KeywordNotBare("this", w);
    ThisBranch(FixedOffset(e), MatchInDays(e), WeekdayAfter(e, "this"), WeekdayAfter(e, "next"), WeekdayNumber(e),
               Weekday(ref));
  }

  /** "this <weekday>": the next such day strictly after the reference date, at most a week ahead. */
  lemma ThisWeekday(w: string, ref: Date)
    requires WeekdayNumber(w).Some? && Valid(ref)
    ensures var r := ParseRelativeDate("this " + w, ref);
      r.Some? && Weekday(r.value) == WeekdayNumber(w).value && Ordinal(ref) < Ordinal(r.value) <= Ordinal(ref) + 7
  {
    var e := "this" + (" " + w);
    assert e == "this " + w;
    var n := DaysAhead(WeekdayNumber(w).value, Weekday(ref));
    KeywordShape("this", w);
    RelativeDateNormal(e, ref);
    ThisOffset(w, ref, n);
    RelativeAt(e, ref, n);
    Ahead(ref, WeekdayNumber(w).value, 0, n);
  }

  lemma NextOffset(e: string, ref: Date, d: int, n: int)
    requires Valid(ref) && 0 <= d < 7 && n == DaysAhead(d, Weekday(ref)) + 7
    requires FixedOffset(e) == None && MatchInDays(e) == None && WeekdayAfter(e, "this") == None
    requires WeekdayAfter(e, "next") == Some(d) && WeekdayNumber(e) == None
    ensures RelativeOffset(FixedOffset(e), MatchInDays(e), WeekdayAfter(e, "this"), WeekdayAfter(e, "next"),
                           WeekdayNumber(e), Weekday(ref)) == Some(n)
  {
  }

  lemma NextMatchers(w: string)
    requires WeekdayNumber(w).Some?
    ensures var e := "next" + (" " + w);
      FixedOffset(e) == None && MatchInDays(e) == None && WeekdayAfter(e, "this") == None
      && WeekdayAfter(e, "next") == WeekdayNumber(w) && WeekdayNumber(e) == None
  {
    var e := "next" + (" " + w);
    assert e[0] == 'n';
    KeywordAfter("next", w);
    AfterWordFirst(e, "in");
    AfterWordFirst(e, "this");
    KeywordNotFixed("next", w);
    KeywordNotBare("next", w);
  }

  /** "next <weekday>": a week after "this <weekday>", so eight to fourteen days ahead. */
  lemma NextWeekday(w: string, ref: Date)
    requires WeekdayNumber(w).Some? && Valid(ref)
    ensures var r := ParseRelativeDate("next " + w, ref);
      r.Some? && Weekday(r.value) == WeekdayNumber(w).value && Ordinal(ref) + 7 < Ordinal(r.value) <= Ordinal(ref) + 14
  {
    var e := "next" + (" " + w);
    assert e == "next " + w;
    var n := DaysAhead(WeekdayNumber(w).value, Weekday(ref)) + 7;
    KeywordShape("next", w);
    RelativeDateNormal(e, ref);
    NextMatchers(w);
    NextOffset(e, ref, WeekdayNumber(w).value, n);
    RelativeAt(e, ref, n);
    Ahead(ref, WeekdayNumber(w).value, 7, n);
  }

  /** "in <digits> days" reads the digits as the count. */
  lemma InDaysOf(e: string, d: string)
    requires d != [] && AllDigits(d) && AfterWord(e, "in") == Some(d + " days")
    ensures MatchInDays(e) == Some(DigitsValue(d))
  {
    var r := d + " days";
    assert r[..|d|] == d && r[|d|..] == " days";
    LeadingDigitsExact(r, |d|);
    SpaceThen("days");
  }

  lemma InDaysMatch(n: nat)
    ensures MatchInDays("in" + (" " + (NatToString(n) + " days"))) == Some(n)
  {
    var d := NatToString(n);
    AfterWordSpace("in", d + " days");
    InDaysOf("in" + (" " + (d + " days")), d);
    NatToStringValue(n);
  }

  lemma InDaysShape(d: string)
    requires d != [] && AllDigits(d)
    ensures var e := "in" + (" " + (d + " days"));
      e == "in " + d + " days" && e != [] && !IsSpace(e[0]) && !IsSpace(e[|e| - 1]) && NoCapitals(e)
  {
    var r := d + " days";
    var e := "in" + (" " + r);
    assert e[|e| - 1] == 's';
    DigitsNoCapitals(d);
    assert NoCapitals(" days");
    NoCapitalsConcat(d, " days");
    assert NoCapitals("in ");
    NoCapitalsConcat("in ", r);
    assert "in " + r == e;
  }

  lemma InDaysOffset(n: nat, ref: Date)
    requires Valid(ref)
    ensures var e := "in" + (" " + (NatToString(n) + " days"));
      RelativeOffset(FixedOffset(e), MatchInDays(e), WeekdayAfter(e, "this"), WeekdayAfter(e, "next"),
                     WeekdayNumber(e), Weekday(ref)) == Some(n)
  {
    var e := "in" + (" " + (NatToString(n) + " days"));
    InDaysMatch(n);
    NotFixed(e);
  }

  /** "in <n> days" is `n` days after the reference date. */
  lemma InDays(n: nat, ref: Date)
    requires Valid(ref)
    ensures ParseRelativeDate("in " + NatToString(n) + " days", ref) == Some(AddDays(ref, n))
    ensures Ordinal(AddDays(ref, n)) == Ordinal(ref) + n
  {
    var d := NatToString(n);
    var e := "in" + (" " + (d + " days"));
    InDaysShape(d);
    RelativeDateNormal(e, ref);
    InDaysOffset(n, ref);
    RelativeAt(e, ref, n);
    AddDaysOrdinal(ref, n);
  }

  /** An expression starting with a digit goes to the `strptime` formats. */
  lemma DigitStartDate(e: string, ref: Date)
    requires Valid(ref) && e != [] && IsDigit(e[0])
    ensures RelativeDate(e, ref) == FirstFormat(e, DateFormats, ref)
  {
    AfterWordFirst(e, "in");
    AfterWordFirst(e, "this");
    AfterWordFirst(e, "next");
    NotFixed(e);
    WeekdayName(e);
    RelativeNone(e, ref);
  }

  lemma IsoShape(d: Date)
    requires InRange(d)
    ensures var s := IsoFormat(d);
      s != [] && IsDigit(s[0]) && IsDigit(s[|s| - 1]) && NoCapitals(s)
  {
    var y := Pad4(d.year);
    var m := Pad2(d.month);
    var dd := Pad2(d.day);
    var s := IsoFormat(d);
    assert s[0] == y[0];
    assert s[|s| - 1] == dd[|dd| - 1];
    DigitsNoCapitals(y);
    DigitsNoCapitals(m);
    DigitsNoCapitals(dd);
    NoCapitalsConcat("-", dd);
    NoCapitalsConcat(m, "-" + dd);
    NoCapitalsConcat("-", m + ("-" + dd));
    NoCapitalsConcat(y, "-" + (m + ("-" + dd)));
  }

  /** An ISO date is read as itself, except that year 1900 stands for "no year" and is rolled forward. */
  lemma IsoRelativeDate(d: Date, ref: Date)
    requires InRange(d) && Valid(ref)
    ensures ParseRelativeDate(IsoFormat(d), ref) == Some(Rollover(d, ref))
  {
    var s := IsoFormat(d);
    IsoShape(d);
    RelativeDateNormal(s, ref);
    DigitStartDate(s, ref);
    IsoRoundTrip(d);
    assert DateFormats[0] == IsoDate;
  }

  /** The fixed words are distinct, lower case and have no surrounding whitespace. */
  lemma FixedWordsForms()
    ensures forall i, j :: 0 <= i < j < |FixedWords| ==> FixedWords[i].0 != FixedWords[j].0
    ensures forall i :: 0 <= i < |FixedWords| ==> NoCapitals(FixedWords[i].0)
    ensures forall i :: 0 <= i < |FixedWords| ==> var w := FixedWords[i].0; w != [] && !IsSpace(w[0]) && !IsSpace(w[|w| - 1])
  {
  }

  /**
   * Each fixed word (today, tonight, this evening: 0; tomorrow, tmrw, tmr: 1; day after tomorrow,
   * overmorrow: 2; yesterday: -1) is read as that many days from the reference date.
   */
  lemma FixedWordDate(e: string, ref: Date, k: nat)
    requires Valid(ref) && k < |FixedWords| && e == FixedWords[k].0
    ensures ParseRelativeDate(e, ref) == Some(AddDays(ref, FixedWords[k].1))
  {
    FixedWordsForms();
    LookupAt(FixedWords, e, k);
    RelativeDateNormal(e, ref);
    RelativeAt(e, ref, FixedWords[k].1);
  }
}
