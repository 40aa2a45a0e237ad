/** Duration formatting and the `datetime-local` rendering of a date. A parsed
    `Date` is represented by its time value in milliseconds (`None` for an
    unparseable string) or by its local calendar fields. */
module DateUtils {
  import opened Wrappers
  import opened Strings

  const InvalidDateFallback := "—"
  const InvalidRange := "Invalid range"

  /** Milliseconds per second, minute (60 s), hour (60 min) and day (24 h),
      written out as literals so that products with them stay linear. */
  const MsPerSecond: nat := 1000
  const MsPerMinute: nat := 60_000
  const MsPerHour: nat := 3_600_000
  const MsPerDay: nat := 86_400_000

  /** A time value is at most 10^8 days from the epoch; beyond that a `Date` is invalid. */
  const MaxTimeValue: int := 8_640_000_000_000_000

  /** `isValidDate`: the date's time value is a number. */
  predicate IsValidDate(t: Option<int>) {
    t.Some? && -MaxTimeValue <= t.value <= MaxTimeValue
  }

  /** Whole days, the whole hours left within the day and the whole minutes
      left within the hour, as the source computes them. */
  function Components(diff: nat): (c: (nat, nat, nat))
    ensures c.1 < 24 && c.2 < 60
    ensures c.0 * MsPerDay + c.1 * MsPerHour + c.2 * MsPerMinute <= diff
    ensures diff < c.0 * MsPerDay + c.1 * MsPerHour + c.2 * MsPerMinute + MsPerMinute
  {
    var days := diff / MsPerDay;
    var hours := (diff % MsPerDay) / MsPerHour;
    var minutes := (diff % MsPerHour) / MsPerMinute;
    assert diff % MsPerHour == (diff % MsPerDay) % MsPerHour by {
      var r := diff % MsPerDay;
      assert diff == (days * 24 + r / MsPerHour) * MsPerHour + r % MsPerHour;
    }
    (days, hours, minutes)
  }

  /** The decomposition is the only one with hours below 24 and minutes below 60. */
  lemma ComponentsUnique(diff: nat, d: nat, h: nat, m: nat)
    requires h < 24 && m < 60
    requires d * MsPerDay + h * MsPerHour + m * MsPerMinute <= diff < d * MsPerDay + h * MsPerHour + m * MsPerMinute + MsPerMinute
    ensures Components(diff) == (d, h, m)
  {
    var c := Components(diff);
    var x := d * 1440 + h * 60 + m;
    var y := c.0 * 1440 + c.1 * 60 + c.2;
    assert x * MsPerMinute == d * MsPerDay + h * MsPerHour + m * MsPerMinute;
    assert y * MsPerMinute == c.0 * MsPerDay + c.1 * MsPerHour + c.2 * MsPerMinute;
    SameMinuteCount(diff, x, y);
    MinuteFieldsUnique(d, h, m, c.0, c.1, c.2);
  }

  lemma SameMinuteCount(diff: nat, x: nat, y: nat)
    requires x * MsPerMinute <= diff < x * MsPerMinute + MsPerMinute
    requires y * MsPerMinute <= diff < y * MsPerMinute + MsPerMinute
    ensures x == y
  {
  }

  lemma MinuteFieldsUnique(d: nat, h: nat, m: nat, d2: nat, h2: nat, m2: nat)
    requires h < 24 && m < 60 && h2 < 24 && m2 < 60
    requires d * 1440 + h * 60 + m == d2 * 1440 + h2 * 60 + m2
    ensures d == d2 && h == h2 && m == m2
  {
  }

  /** One displayed component: its number followed by its unit letter. */
  function Part(n: nat, unit: char): string {
    NatToString(n) + [unit]
  }

  /** The reference reading of the displayed parts: the non-zero components in
      the order days, hours, minutes, or "0m" alone when all three are zero. */
  function DisplayedParts(c: (nat, nat, nat)): seq<string> {
    var nonZero := (if c.0 > 0 then [Part(c.0, 'd')] else [])
                   + (if c.1 > 0 then [Part(c.1, 'h')] else [])
                   + (if c.2 > 0 then [Part(c.2, 'm')] else []);
    if nonZero == [] then [Part(0, 'm')] else nonZero
  }

  /** The text `formatDuration` shows for two time values. */
  function DurationText(start: Option<int>, end: Option<int>): string {
    if !IsValidDate(start) || !IsValidDate(end) then InvalidDateFallback
    else
      var diff := end.value - start.value;
      if diff < 0 then InvalidRange
      else if diff == 0 then "0m"
      else Join(DisplayedParts(Components(diff)), " ")
  }

  /** `formatDuration`, collecting the parts with conditional pushes. */
  method FormatDuration(start: Option<int>, end: Option<int>) returns (s: string)
    ensures s == DurationText(start, end)
  {
    if !IsValidDate(start) || !IsValidDate(end) {
      return InvalidDateFallback;
    }
    var diffMs := end.value - start.value;
    if diffMs < 0 {
      return InvalidRange;
    }
    if diffMs == 0 {
      return "0m";
    }
    var c := Components(diffMs);
    var days, hours, minutes := c.0, c.1, c.2;
    var parts: seq<string> := [];
    if days > 0 {
      parts := parts + [Part(days, 'd')];
    }
    if hours > 0 {
      parts := parts + [Part(hours, 'h')];
    }
    if minutes > 0 || |parts| == 0 {
      parts := parts + [Part(minutes, 'm')];
    }
    assert parts == DisplayedParts(c);
    s := Join(parts, " ");
  }

  function UnitRank(unit: char): nat {
    if unit == 'd' then 0 else if unit == 'h' then 1 else 2
  }

  /** Each part is a number and one of the units d, h, m; the units appear in
      that order, each at most once; a zero is shown only as the lone "0m". */
  lemma DisplayedPartsShape(c: (nat, nat, nat))
    ensures 1 <= |DisplayedParts(c)| <= 3
    ensures forall i :: 0 <= i < |DisplayedParts(c)| ==>
              exists n: nat, u :: u in "dhm" && DisplayedParts(c)[i] == Part(n, u)
                                 && (n == 0 ==> DisplayedParts(c) == ["0m"])
    ensures forall i, j :: 0 <= i < j < |DisplayedParts(c)| ==>
              UnitRank(Last(DisplayedParts(c)[i])) < UnitRank(Last(DisplayedParts(c)[j]))
  {
    assert Part(0, 'm') == "0m";
  }

  /** Each non-zero component is shown, and every shown part carries the
      component of its unit: days with 'd', hours with 'h', minutes with 'm'. */
  lemma DisplayedPartsValues(c: (nat, nat, nat))
    ensures c.0 > 0 ==> Part(c.0, 'd') in DisplayedParts(c)
    ensures c.1 > 0 ==> Part(c.1, 'h') in DisplayedParts(c)
    ensures c.2 > 0 ==> Part(c.2, 'm') in DisplayedParts(c)
    ensures forall n: nat, u: char :: Part(n, u) in DisplayedParts(c) ==>
              (u == 'd' && n == c.0) || (u == 'h' && n == c.1) || (u == 'm' && n == c.2)
  {
    forall n: nat, u: char | Part(n, u) in DisplayedParts(c)
      ensures (u == 'd' && n == c.0) || (u == 'h' && n == c.1) || (u == 'm' && n == c.2)
    {
      if Part(n, u) == Part(c.0, 'd') {
        PartInjective(n, u, c.0, 'd');
      } else if Part(n, u) == Part(c.1, 'h') {
        PartInjective(n, u, c.1, 'h');
      } else {
        PartInjective(n, u, c.2, 'm');
      }
    }
  }

  /** A part determines its number and its unit. */
  lemma PartInjective(n: nat, u: char, n2: nat, u2: char)
    requires Part(n, u) == Part(n2, u2)
    ensures n == n2 && u == u2
  {
    var p := Part(n, u);
    assert p[|p| - 1] == u && p[|p| - 1] == u2;
    assert p[..|p| - 1] == NatToString(n) && p[..|p| - 1] == NatToString(n2);
    NatToStringInjective(n, n2);
  }

  function Last(s: string): char
    requires |s| >= 1
  {
    s[|s| - 1]
  }

  /** A part is digits and a letter, never a space. */
  lemma PartNoSpace(n: nat, unit: char)
    requires unit != ' '
    ensures ' ' !in Part(n, unit)
  {
    var digits := NatToString(n);
    assert forall k :: 0 <= k < |digits| ==> IsDigit(digits[k]);
    assert forall k :: 0 <= k < |Part(n, unit)| ==> Part(n, unit)[k] != ' ' by {
      assert Part(n, unit) == digits + [unit];
    }
  }

  lemma DisplayedPartsNoSpace(c: (nat, nat, nat))
    ensures forall i :: 0 <= i < |DisplayedParts(c)| ==> ' ' !in DisplayedParts(c)[i]
  {
    PartNoSpace(c.0, 'd');
    PartNoSpace(c.1, 'h');
    PartNoSpace(c.2, 'm');
    PartNoSpace(0, 'm');
  }

  /** A part never holds a space, so the shown text splits back into its parts
      at single spaces. */
  lemma DurationTextSplits(start: Option<int>, end: Option<int>)
    requires IsValidDate(start) && IsValidDate(end) && end.value > start.value
    ensures Split(DurationText(start, end), ' ') == DisplayedParts(Components(end.value - start.value))
  {
    var parts := DisplayedParts(Components(end.value - start.value));
    DisplayedPartsNoSpace(Components(end.value - start.value));
    SplitJoin(parts, ' ');
  }

  /** For valid dates the text is never empty. */
  lemma DurationTextNonEmpty(start: Option<int>, end: Option<int>)
    ensures DurationText(start, end) != ""
  {
    if IsValidDate(start) && IsValidDate(end) && end.value > start.value {
      var parts := DisplayedParts(Components(end.value - start.value));
      JoinNonEmpty(parts, " ");
    }
  }

  /** The cases the source documents. */
  lemma DurationExamples(t: int)
    requires -MaxTimeValue <= t && t + MsPerDay <= MaxTimeValue
    ensures DurationText(Some(t), Some(t)) == "0m"
    ensures DurationText(Some(t + 1), Some(t)) == InvalidRange
    ensures DurationText(Some(t), Some(t + 45_000)) == "0m"
    ensures DurationText(Some(t), Some(t + 9_000_000)) == "2h 30m"
    ensures DurationText(Some(t), Some(t + MsPerDay)) == "1d"
    ensures DurationText(None, Some(t)) == InvalidDateFallback
  {
    assert Components(45_000) == (0, 0, 0);
    assert Components(9_000_000) == (0, 2, 30);
    assert Part(2, 'h') == "2h" by {
      assert NatToString(2) == [DigitChar(2)] == "2";
    }
    assert Part(30, 'm') == "30m" by {
      assert NatToString(3) == [DigitChar(3)] == "3";
      assert NatToString(30) == NatToString(3) + [DigitChar(0)] == "30";
    }
    assert DisplayedParts((0, 2, 30)) == [Part(2, 'h'), Part(30, 'm')];
    assert Join(["2h", "30m"], " ") == "2h 30m";
    assert Components(MsPerDay) == (1, 0, 0);
    assert Part(1, 'd') == "1d" by {
      assert NatToString(1) == [DigitChar(1)] == "1";
    }
    assert DisplayedParts((1, 0, 0)) == [Part(1, 'd')];
  }

  /** The local calendar fields of a valid `Date`; `month` is zero-based, as
      `getMonth` gives it. */
  datatype LocalFields = LocalFields(year: int, month: nat, day: nat, hours: nat, minutes: nat)

  /** The ranges a `Date` keeps its fields in. */
  predicate InDateRanges(f: LocalFields) {
    f.month < 12 && 1 <= f.day <= 31 && f.hours < 24 && f.minutes < 60
  }

  /** `toLocalDatetime`: `YYYY-MM-DDTHH:MM` with a one-based month and two-digit
      day, hour and minute; "" for an invalid date. */
  function ToLocalDatetime(date: Option<LocalFields>): (r: string)
    ensures r == "" <==> date.None?
  {
    match date
    case None => ""
    case Some(f) => IntToString(f.year) + DatetimeTail(f)
  }

  /** Everything after the year: `-MM-DDTHH:MM`. */
  function DatetimeTail(f: LocalFields): string {
    Tail(PadTwo(f.month + 1), PadTwo(f.day), PadTwo(f.hours), PadTwo(f.minutes))
  }

  function Tail(month: string, day: string, hours: string, minutes: string): string {
    "-" + month + "-" + day + "T" + hours + ":" + minutes
  }

  lemma TailShape(month: string, day: string, hours: string, minutes: string)
    requires |month| == |day| == |hours| == |minutes| == 2
    ensures var t := Tail(month, day, hours, minutes);
      |t| == 12 && t[0] == '-' && t[3] == '-' && t[6] == 'T' && t[9] == ':'
      && t[1..3] == month && t[4..6] == day && t[7..9] == hours && t[10..] == minutes
  {
  }

  /** A two-character field of decimal digits. */
  predicate IsTwoDigits(s: string) {
    |s| == 2 && IsDigit(s[0]) && IsDigit(s[1])
  }

  function TwoDigitsValue(s: string): nat
    requires IsTwoDigits(s)
  {
    DigitValue(s[0]) * 10 + DigitValue(s[1])
  }

  /** Reads a `datetime-local` value back: the year digits, then the fixed
      `-MM-DDTHH:MM` tail. */
  function ParseLocalDatetime(s: string): Option<LocalFields> {
    if |s| < 13 then None
    else
      var year, t := s[..|s| - 12], s[|s| - 12..];
      if AllDigits(year) && t[0] == '-' && t[3] == '-' && t[6] == 'T' && t[9] == ':'
         && IsTwoDigits(t[1..3]) && IsTwoDigits(t[4..6]) && IsTwoDigits(t[7..9]) && IsTwoDigits(t[10..])
         && TwoDigitsValue(t[1..3]) >= 1
      then Some(LocalFields(DigitsValue(year), TwoDigitsValue(t[1..3]) - 1, TwoDigitsValue(t[4..6]),
                            TwoDigitsValue(t[7..9]), TwoDigitsValue(t[10..])))
      else None
  }

  /** Any year digits followed by a well-formed tail read back as their values. */
  lemma ParseRendered(year: string, month: string, day: string, hours: string, minutes: string)
    requires year != [] && AllDigits(year)
    requires IsTwoDigits(month) && IsTwoDigits(day) && IsTwoDigits(hours) && IsTwoDigits(minutes)
    requires TwoDigitsValue(month) >= 1
    ensures ParseLocalDatetime(year + Tail(month, day, hours, minutes))
            == Some(LocalFields(DigitsValue(year), TwoDigitsValue(month) - 1, TwoDigitsValue(day),
                                TwoDigitsValue(hours), TwoDigitsValue(minutes)))
  {
    var t := Tail(month, day, hours, minutes);
    TailShape(month, day, hours, minutes);
    var s := year + t;
    assert s[..|s| - 12] == year && s[|s| - 12..] == t;
  }

  /** The padded rendering of a number below 100 is a two-digit field with that value. */
  lemma PadTwoField(n: nat)
    requires n < 100
    ensures IsTwoDigits(PadTwo(n)) && TwoDigitsValue(PadTwo(n)) == n
  {
    PadTwoDigits(n);
    DigitPairField(n / 10, n % 10);
  }

  lemma DigitPairField(x: nat, y: nat)
    requires x < 10 && y < 10
    ensures IsTwoDigits([DigitChar(x), DigitChar(y)])
    ensures TwoDigitsValue([DigitChar(x), DigitChar(y)]) == x * 10 + y
  {
    DigitCharValue(x);
    DigitCharValue(y);
  }

  /** Rendering a date with a non-negative year and reading it back gives the same fields. */
  lemma LocalDatetimeRoundTrip(f: LocalFields)
    requires InDateRanges(f) && f.year >= 0
    ensures ParseLocalDatetime(ToLocalDatetime(Some(f))) == Some(f)
  {
    RenderedFields(f);
    FieldsReadBack(f, NatToString(f.year), PadTwo(f.month + 1), PadTwo(f.day), PadTwo(f.hours), PadTwo(f.minutes));
  }

  /** The pieces of a rendering and the values they read back as. */
  lemma RenderedFields(f: LocalFields)
    requires InDateRanges(f)
    ensures ToLocalDatetime(Some(f)) == IntToString(f.year) + Tail(PadTwo(f.month + 1), PadTwo(f.day), PadTwo(f.hours), PadTwo(f.minutes))
    ensures f.year >= 0 ==> IntToString(f.year) == NatToString(f.year) && NatToString(f.year) != []
                            && AllDigits(NatToString(f.year)) && DigitsValue(NatToString(f.year)) == f.year
    ensures IsTwoDigits(PadTwo(f.month + 1)) && TwoDigitsValue(PadTwo(f.month + 1)) == f.month + 1
    ensures IsTwoDigits(PadTwo(f.day)) && TwoDigitsValue(PadTwo(f.day)) == f.day
    ensures IsTwoDigits(PadTwo(f.hours)) && TwoDigitsValue(PadTwo(f.hours)) == f.hours
    ensures IsTwoDigits(PadTwo(f.minutes)) && TwoDigitsValue(PadTwo(f.minutes)) == f.minutes
  {
    YearDigits(f.year);
    PaddedFields(f);
  }

  /** A non-negative year renders as digits that spell it. */
  lemma YearDigits(year: int)
    ensures year >= 0 ==> IntToString(year) == NatToString(year) && NatToString(year) != []
                          && AllDigits(NatToString(year)) && DigitsValue(NatToString(year)) == year
  {
    if year >= 0 {
      DigitsValueOfNatToString(year);
    }
  }

  lemma PaddedFields(f: LocalFields)
    requires InDateRanges(f)
    ensures IsTwoDigits(PadTwo(f.month + 1)) && TwoDigitsValue(PadTwo(f.month + 1)) == f.month + 1
    ensures IsTwoDigits(PadTwo(f.day)) && TwoDigitsValue(PadTwo(f.day)) == f.day
    ensures IsTwoDigits(PadTwo(f.hours)) && TwoDigitsValue(PadTwo(f.hours)) == f.hours
    ensures IsTwoDigits(PadTwo(f.minutes)) && TwoDigitsValue(PadTwo(f.minutes)) == f.minutes
  {
    PadTwoField(f.month + 1);
    PadTwoField(f.day);
    PadTwoField(f.hours);
    PadTwoField(f.minutes);
  }

  lemma FieldsReadBack(f: LocalFields, year: string, month: string, day: string, hours: string, minutes: string)
    requires year != [] && AllDigits(year) && DigitsValue(year) == f.year
    requires IsTwoDigits(month) && TwoDigitsValue(month) == f.month + 1
    requires IsTwoDigits(day) && TwoDigitsValue(day) == f.day
    requires IsTwoDigits(hours) && TwoDigitsValue(hours) == f.hours
    requires IsTwoDigits(minutes) && TwoDigitsValue(minutes) == f.minutes
    ensures ParseLocalDatetime(year + Tail(month, day, hours, minutes)) == Some(f)
  {
    ParseRendered(year, month, day, hours, minutes);
  }

  /** Four-digit years give the 16-character `datetime-local` form. */
  lemma LocalDatetimeLength(f: LocalFields)
    requires InDateRanges(f) && 1000 <= f.year <= 9999
    ensures |ToLocalDatetime(Some(f))| == 16
  {
    var y, t := IntToString(f.year), DatetimeTail(f);
    assert |t| == 12 by {
      RenderedFields(f);
      TailShape(PadTwo(f.month + 1), PadTwo(f.day), PadTwo(f.hours), PadTwo(f.minutes));
    }
    assert |y| == 4 by {
      FourDigits(f.year);
    }
    assert ToLocalDatetime(Some(f)) == y + t;
  }

  lemma FourDigits(n: nat)
    requires 1000 <= n <= 9999
    ensures |NatToString(n)| == 4
  {
    assert |NatToString(n / 100)| == 2;
    assert |NatToString(n / 10)| == 3;
  }
}
