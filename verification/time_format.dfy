/**
 * The hours-to-text conversion of the prediction endpoint (`format_time`
 * in main.py). Under one hour the text is a count of minutes; from one to
 * twenty-four hours it is an hour count; from twenty-four hours on it is a
 * day count with an optional whole-hour remainder.
 *
 * The conversion is split in two: `Classify` makes every numeric decision
 * (branch, truncation, day/remainder split, plural choice) and `Render`
 * writes the chosen form as text. `Parse` reads the whole-number forms back,
 * so the text is shown to carry exactly what `Classify` decided.
 */
module TimeFormat {
  import opened Wrappers
  import opened Decimal

  /** Python's `int(x)` on a float: truncation toward zero. */
  function Trunc(x: real): (n: int)
    ensures 0.0 <= x ==> 0 <= n && n as real <= x < n as real + 1.0
    ensures x < 0.0 ==> n <= 0 && n as real - 1.0 < x <= n as real
  {
    if x >= 0.0 then x.Floor else -((-x).Floor)
  }

  /**
   * Python's `hours // 24` and `hours % 24` on a float, in exact arithmetic:
   * the whole number of days and the hours left over.
   */
  function DaySplit(hours: real): (r: (int, real))
    ensures 24.0 * r.0 as real + r.1 == hours
    ensures 0.0 <= r.1 < 24.0
  {
    var d := (hours / 24.0).Floor;
    (d, hours - 24.0 * d as real)
  }

  /** The hour part of the days form: its count and whether "hour" takes an "s". */
  datatype HourPart = HourPart(count: int, plural: bool)

  /** The form the text takes, with every number it shows. */
  datatype TimeText =
    | Minutes(count: int)
    | WholeHours(count: int)
    | FractionalHours(hours: real)
    | Days(count: int, plural: bool, rest: Option<HourPart>)

  /** True when `x` has no fractional part. */
  predicate Integral(x: real) {
    x == Trunc(x) as real
  }

  /** The decisions `format_time` takes for a given number of hours. */
  function Classify(hours: real): (r: TimeText)
    // under one hour: minutes, truncated toward zero
    ensures hours < 1.0 ==> r == Minutes(Trunc(hours * 60.0))
    ensures 0.0 <= hours < 1.0 ==>
              0 <= r.count < 60 && r.count as real <= hours * 60.0 < r.count as real + 1.0
    // one to twenty-four hours: a whole count only when the value is whole
    ensures 1.0 <= hours < 24.0 ==> (r.WholeHours? || r.FractionalHours?)
    ensures 1.0 <= hours < 24.0 ==> (r.WholeHours? <==> Integral(hours))
    ensures r.WholeHours? ==> r.count as real == hours && 1 <= r.count < 24
    ensures r.FractionalHours? ==> r.hours == hours && 1.0 < hours < 24.0
    // twenty-four hours and more: days, then the whole hours left over
    ensures hours >= 24.0 <==> r.Days?
    ensures r.Days? ==> r.count >= 1 && (r.plural <==> r.count > 1)
    ensures r.Days? && r.rest.None? ==>
              24.0 * r.count as real <= hours < 24.0 * r.count as real + 1.0
    ensures r.Days? && r.rest.Some? ==>
              var h := r.rest.value;
              && 1 <= h.count < 24
              && 24.0 * r.count as real + h.count as real <= hours
              && hours < 24.0 * r.count as real + h.count as real + 1.0
              && (h.plural <==> hours - 24.0 * r.count as real > 1.0)
  {
    if hours < 1.0 then
      Minutes(Trunc(hours * 60.0))
    else if hours < 24.0 then
      if !Integral(hours) then FractionalHours(hours) else WholeHours(Trunc(hours))
    else
      var (days, remaining) := DaySplit(hours);
      if remaining < 1.0 then Days(days, days > 1, None)
      else Days(days, days > 1, Some(HourPart(Trunc(remaining), remaining > 1.0)))
  }

  /** A noun, with an "s" appended when `plural`. */
  function Noun(word: string, plural: bool): string {
    if plural then word + "s" else word
  }

  /**
   * The text of a form. `oneDecimal` stands for Python's `f"{x:.1f}"`, whose
   * float rendering is not modelled.
   */
  function Render(t: TimeText, oneDecimal: real -> string): string {
    match t
    case Minutes(n) => IntText(n) + " " + "minutes"
    case WholeHours(n) => IntText(n) + " " + "hours"
    case FractionalHours(h) => oneDecimal(h) + " " + "hours"
    case Days(d, p, None) => IntText(d) + " " + Noun("day", p)
    case Days(d, p, Some(h)) =>
      IntText(d) + " " + Noun("day", p) + " " + IntText(h.count) + " " + Noun("hour", h.plural)
  }

  /** `format_time(hours)`. */
  function FormatTime(hours: real, oneDecimal: real -> string): (s: string)
    ensures 1.0 <= hours < 24.0 && !Integral(hours) ==> s == oneDecimal(hours) + " hours"
  {
    Render(Classify(hours), oneDecimal)
  }

  /** The first space-separated word of `s` and what follows that space. */
  function NextWord(s: string): (r: (string, string))
    ensures ' ' !in r.0
  {
    if |s| == 0 then ("", "")
    else if s[0] == ' ' then ("", s[1..])
    else
      var (w, rest) := NextWord(s[1..]);
      ([s[0]] + w, rest)
  }

  /** Reads back a text in one of the whole-number forms. */
  function Parse(s: string): Option<TimeText> {
    var (w1, r1) := NextWord(s);
    var n :- ParseInt(w1);
    var (w2, r2) := NextWord(r1);
    if r2 == "" then
      if w2 == "minutes" then Some(Minutes(n))
      else if w2 == "hours" then Some(WholeHours(n))
      else if w2 == "day" || w2 == "days" then Some(Days(n, w2 == "days", None))
      else None
    else if w2 == "day" || w2 == "days" then
      var h :- ParseHourPart(r2);
      Some(Days(n, w2 == "days", Some(h)))
    else None
  }

  /** Reads back the hour part of the days form. */
  function ParseHourPart(s: string): Option<HourPart> {
    var (w1, r1) := NextWord(s);
    var h :- ParseInt(w1);
    var (w2, r2) := NextWord(r1);
    if r2 == "" && (w2 == "hour" || w2 == "hours") then Some(HourPart(h, w2 == "hours"))
    else None
  }

  lemma {:induction false} NextWordSplits(a: string, b: string)
    requires ' ' !in a
    ensures NextWord(a + " " + b) == (a, b)
  {
    if |a| > 0 {
      assert (a + " " + b)[1..] == a[1..] + " " + b;
      NextWordSplits(a[1..], b);
      assert [a[0]] + a[1..] == a;
    }
  }

  lemma {:induction false} NextWordWhole(a: string)
    requires ' ' !in a
    ensures NextWord(a) == (a, "")
  {
    if |a| > 0 {
      NextWordWhole(a[1..]);
      assert [a[0]] + a[1..] == a;
    }
  }

  /** A count followed by a single word reads back through the first branch of `Parse`. */
  lemma ParseShortForm(n: int, word: string)
    requires ' ' !in word
    ensures Parse(IntText(n) + " " + word) ==
              if word == "minutes" then Some(Minutes(n))
              else if word == "hours" then Some(WholeHours(n))
              else if word == "day" || word == "days" then Some(Days(n, word == "days", None))
              else None
  {
    NextWordSplits(IntText(n), word);
    ParseIntText(n);
    NextWordWhole(word);
  }

  lemma ParseHourPartText(h: int, hourWord: string)
    requires hourWord == "hour" || hourWord == "hours"
    ensures ParseHourPart(IntText(h) + " " + hourWord) == Some(HourPart(h, hourWord == "hours"))
  {
    NextWordSplits(IntText(h), hourWord);
    ParseIntText(h);
    NextWordWhole(hourWord);
  }

  /** The days form with an hour part reads back through the second branch of `Parse`. */
  lemma ParseLongForm(d: int, dayWord: string, h: int, hourWord: string)
    requires dayWord == "day" || dayWord == "days"
    requires hourWord == "hour" || hourWord == "hours"
    ensures Parse(IntText(d) + " " + dayWord + " " + IntText(h) + " " + hourWord) ==
              Some(Days(d, dayWord == "days", Some(HourPart(h, hourWord == "hours"))))
  {
    var tail := IntText(h) + " " + hourWord;
    var s := IntText(d) + " " + dayWord + " " + IntText(h) + " " + hourWord;
    assert s == IntText(d) + " " + (dayWord + " " + tail);
    NextWordSplits(IntText(d), dayWord + " " + tail);
    ParseIntText(d);
    NextWordSplits(dayWord, tail);
    ParseHourPartText(h, hourWord);
  }

  /** Every whole-number form reads back as itself. */
  lemma ParseRender(t: TimeText, oneDecimal: real -> string)
    requires !t.FractionalHours?
    ensures Parse(Render(t, oneDecimal)) == Some(t)
  {
    match t
    case Minutes(n) => ParseShortForm(n, "minutes");
    case WholeHours(n) => ParseShortForm(n, "hours");
    case Days(d, p, None) => ParseShortForm(d, Noun("day", p));
    case Days(d, p, Some(h)) => ParseLongForm(d, Noun("day", p), h.count, Noun("hour", h.plural));
  }

  /**
   * Outside the fractional-hours case the text of `format_time` reads back
   * as exactly the form `Classify` chose, so every property stated of
   * `Classify` (minute bounds, day/remainder split, plural choices) holds of
   * the text itself.
   */
  lemma FormatTimeReadsBack(hours: real, oneDecimal: real -> string)
    requires !(1.0 <= hours < 24.0 && !Integral(hours))
    ensures Parse(FormatTime(hours, oneDecimal)) == Some(Classify(hours))
  {
    ParseRender(Classify(hours), oneDecimal);
  }

  /** `hours // 24` and `hours % 24` are the only day/remainder pair in range. */
  lemma DaySplitUnique(hours: real, days: int, remaining: real)
    requires 24.0 * days as real + remaining == hours
    requires 0.0 <= remaining < 24.0
    ensures DaySplit(hours) == (days, remaining)
  {
    var q := hours / 24.0;
    assert q == days as real + remaining / 24.0;
    assert days as real <= q < days as real + 1.0;
    assert q.Floor == days;
  }

  /** Exactly one hour renders with the noun still plural. */
  lemma OneHourIsPlural(oneDecimal: real -> string)
    ensures FormatTime(1.0, oneDecimal) == "1 hours"
  {
  }

  /** Every whole number of hours from 1 to 23 renders with the plural noun, 1 included. */
  lemma WholeHoursAlwaysPlural(n: int, oneDecimal: real -> string)
    requires 1 <= n < 24
    ensures FormatTime(n as real, oneDecimal) == IntText(n) + " hours"
  {
    assert Trunc(n as real) == n;
  }

  /** The hour noun follows the real remainder: 25.5 hours shows "1 hours". */
  lemma RemainderPluralFollowsReal(oneDecimal: real -> string)
    ensures FormatTime(25.5, oneDecimal) == "1 day 1 hours"
  {
  }

  /** A remainder under one hour drops the hour part. */
  lemma WholeDaysOnly(oneDecimal: real -> string)
    ensures FormatTime(48.5, oneDecimal) == "2 days"
  {
  }
}
