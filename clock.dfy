/**
 * The clock as the logging library sees it: an instant is a whole number of
 * seconds since 1970-01-01 00:00:00 local time, turned into a proleptic
 * Gregorian date on demand.  `datetime.now()`, `.day`, `timedelta(days=n)`,
 * `isoformat(sep=' ', timespec='seconds')` and the few `strftime` directives
 * used in file names are defined here.
 */
module Clock {

  const SecondsPerDay: int := 86400

  datatype Date = Date(year: int, month: int, day: int)

  /** Days since the epoch of the instant `t` (midnight belongs to its own day). */
  function DayNumber(t: int): int
  {
    t / SecondsPerDay
  }

  /** `t + timedelta(days=n)`. */
  function AddDays(t: int, n: int): (r: int)
    ensures DayNumber(r) == DayNumber(t) + n
    ensures r % SecondsPerDay == t % SecondsPerDay
  {
    t + n * SecondsPerDay
  }

  /** The civil date of day number `z` (days since 1970-01-01). */
  function CivilFromDays(z: int): (d: Date)
    ensures 1 <= d.month <= 12
    ensures 1 <= d.day <= 31
  {
    var z0 := z + 719468;
    var era := z0 / 146097;
    var doe := z0 - era * 146097;
    var yoe := (doe - doe / 1460 + doe / 36524 - doe / 146096) / 365;
    var doy := doe - (365 * yoe + yoe / 4 - yoe / 100);
    var mp := (5 * doy + 2) / 153;
    var day := doy - (153 * mp + 2) / 5 + 1;
    var month := if mp < 10 then mp + 3 else mp - 9;
    var year := yoe + era * 400 + (if month <= 2 then 1 else 0);
    CivilBounds(doe, yoe, doy, mp);
    Date(year, month, day)
  }

  lemma CivilBounds(doe: int, yoe: int, doy: int, mp: int)
    requires 0 <= doe < 146097
    requires yoe == (doe - doe / 1460 + doe / 36524 - doe / 146096) / 365
    requires doy == doe - (365 * yoe + yoe / 4 - yoe / 100)
    requires mp == (5 * doy + 2) / 153
    ensures 0 <= mp <= 11
    ensures 1 <= doy - (153 * mp + 2) / 5 + 1 <= 31
  {
    assert 0 <= doy <= 365 by { YearOfEraBounds(doe, yoe, doy); }
    assert 0 <= 5 * doy + 2 < 153 * 12;
    assert 153 * mp <= 5 * doy + 2 < 153 * mp + 153;
    assert 5 * ((153 * mp + 2) / 5) <= 153 * mp + 2;
    assert 153 * mp + 2 < 5 * ((153 * mp + 2) / 5) + 5;
  }

  lemma YearOfEraBounds(doe: int, yoe: int, doy: int)
    requires 0 <= doe < 146097
    requires yoe == (doe - doe / 1460 + doe / 36524 - doe / 146096) / 365
    requires doy == doe - (365 * yoe + yoe / 4 - yoe / 100)
    ensures 0 <= doy <= 365
  {
    if doe == 146096 {
      // The last day of the era closes year 399.
      assert yoe == 399;
    } else {
      var b := doe / 36524;
      assert 36524 * b <= doe < 36524 * b + 36524;
      assert doe / 146096 == 0;
      CenturyBounds(doe, b, yoe, doy);
    }
  }

  /** Within century `b` of the era the year of the era lies in that century, so its century leap days are `b`. */
  lemma CenturyBounds(doe: int, b: int, yoe: int, doy: int)
    requires 0 <= b <= 3 && 36524 * b <= doe < 36524 * b + 36524
    requires yoe == (doe - doe / 1460 + b) / 365
    requires doy == doe - (365 * yoe + yoe / 4 - yoe / 100)
    ensures 0 <= doy <= 365
  {
    var a := doe / 1460;
    assert 1460 * a <= doe < 1460 * a + 1460;
    assert 365 * yoe <= doe - a + b < 365 * yoe + 365;
    var p, q := yoe / 4, yoe / 100;
    assert 4 * p <= yoe < 4 * p + 4;
    assert 100 * q <= yoe < 100 * q + 100;
    assert 100 * b <= yoe < 100 * b + 100;
    assert q == b;
  }

  /** `datetime.day`: the day of the month of the instant `t`. */
  function DayOfMonth(t: int): (d: int)
    ensures 1 <= d <= 31
  {
    CivilFromDays(DayNumber(t)).day
  }

  /** `n` in decimal, left-padded with zeros to at least `width` digits (`%0<width>d`). */
  function ZeroPad(n: nat, width: nat): (s: string)
    ensures |s| == if |Digits(n)| >= width then |Digits(n)| else width
  {
    var digits := Digits(n);
    if |digits| >= width then digits else Zeros(width - |digits|) + digits
  }

  function Zeros(k: nat): (s: string)
    ensures |s| == k
  {
    if k == 0 then "" else "0" + Zeros(k - 1)
  }

  /** The broken-down local time of an instant: its date and the second within its day. */
  datatype Moment = Moment(date: Date, second: int)

  predicate ValidMoment(m: Moment)
  {
    1 <= m.date.month <= 12 && 1 <= m.date.day <= 31 && 0 <= m.second < SecondsPerDay
  }

  function At(t: int): (m: Moment)
    ensures ValidMoment(m)
  {
    Moment(CivilFromDays(DayNumber(t)), t % SecondsPerDay)
  }

  /** `isoformat(sep=' ', timespec='seconds')`: `YYYY-MM-DD HH:MM:SS`. */
  function IsoFormat(t: int): string
  {
    var m := At(t);
    Year(m.date.year) + "-" + ZeroPad(m.date.month, 2) + "-" + ZeroPad(m.date.day, 2) + " "
      + Hour(m) + ":" + Minute(m) + ":" + Second(m)
  }

  function Hour(m: Moment): string
    requires 0 <= m.second
  {
    ZeroPad(m.second / 3600, 2)
  }

  function Minute(m: Moment): string
    requires 0 <= m.second
  {
    ZeroPad(m.second % 3600 / 60, 2)
  }

  function Second(m: Moment): string
    requires 0 <= m.second
  {
    ZeroPad(m.second % 60, 2)
  }

  /** The year in four digits (years before 1 do not occur in Python). */
  function Year(y: int): string
  {
    if y < 0 then "-" + ZeroPad(-y, 4) else ZeroPad(y, 4)
  }

  /** The outcome of `strftime`: the text, or a directive the model does not cover. */
  datatype Formatted = Formatted(text: string) | UnknownDirective

  /**
   * `strftime(spec)` for the directives `%Y %m %d %H %M %S %%`; literal
   * characters are copied.
   */
  function Strftime(t: int, spec: string): (r: Formatted)
    ensures '%' !in spec ==> r == Formatted(spec)
  {
    Render(At(t), spec)
  }

  function Render(m: Moment, spec: string): (r: Formatted)
    requires ValidMoment(m)
    ensures '%' !in spec ==> r == Formatted(spec)
  {
    if spec == [] then Formatted("")
    else if spec[0] != '%' then
      match Render(m, spec[1..])
      case Formatted(rest) =>
        assert spec == [spec[0]] + spec[1..];
        Formatted([spec[0]] + rest)
      case UnknownDirective => UnknownDirective
    else if |spec| == 1 then UnknownDirective
    else match Directive(m, spec[1])
      case None => UnknownDirective
      case Some(text) =>
        match Render(m, spec[2..])
        case Formatted(rest) => Formatted(text + rest)
        case UnknownDirective => UnknownDirective
  }

  datatype Maybe<T> = None | Some(value: T)

  function Directive(m: Moment, c: char): Maybe<string>
    requires ValidMoment(m)
  {
    match c
    case 'Y' => Some(Year(m.date.year))
    case 'm' => Some(ZeroPad(m.date.month, 2))
    case 'd' => Some(ZeroPad(m.date.day, 2))
    case 'H' => Some(Hour(m))
    case 'M' => Some(Minute(m))
    case 'S' => Some(Second(m))
    case '%' => Some("%")
    case _ => None
  }

  /** Every field of a moment whose year has four digits has its fixed width. */
  lemma FieldWidths(m: Moment)
    requires 1000 <= m.date.year <= 9999
    requires ValidMoment(m)
    ensures |Year(m.date.year)| == 4
    ensures |ZeroPad(m.date.month, 2)| == 2 && |ZeroPad(m.date.day, 2)| == 2
    ensures |Hour(m)| == 2 && |Minute(m)| == 2 && |Second(m)| == 2
  {
  }

  /** `isoformat` always has the fixed layout `YYYY-MM-DD HH:MM:SS` for years 1000 to 9999. */
  lemma IsoFormatLayout(t: int)
    requires 1000 <= At(t).date.year <= 9999
    ensures |IsoFormat(t)| == 19
    ensures IsoFormat(t)[4] == '-' && IsoFormat(t)[7] == '-' && IsoFormat(t)[10] == ' '
    ensures IsoFormat(t)[13] == ':' && IsoFormat(t)[16] == ':'
  {
    FieldWidths(At(t));
  }

  function Digits(n: nat): (s: string)
    ensures |s| >= 1
    ensures n < 10 <==> |s| == 1
    ensures n < 100 ==> |s| <= 2
    ensures 1000 <= n < 10000 ==> |s| == 4
  {
    if n < 10 then [DigitChar(n)] else Digits(n / 10) + [DigitChar(n % 10)]
  }

  function DigitChar(d: nat): char
    requires d < 10
  {
    "0123456789"[d]
  }
}
