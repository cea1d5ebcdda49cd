/**
 * The chart requests the pages hand to the charting library. A request is
 * an object of named options; the rendering itself is not part of this model.
 */
module Charts {
  import opened Wrappers
  import opened Values

  /** A vertical annotation at a date, or the empty object `{}`. */
  datatype Marker =
    | Blank
    | Mark(field: string, ms: int, text: string)   // `{field: new Date(ms), label: text}`

  /** A horizontal annotation line. */
  datatype Baseline = Baseline(value: int, text: string)

  /**
   * The value of one option of a request. Function-valued options
   * (interpolators, axis formatters, mouseover callbacks that only format
   * text) are named, not modelled; the two tooltips whose inputs matter
   * carry the fields or the total they read.
   */
  datatype Param =
    | PUndef                                   // JavaScript `undefined`
    | PStr(s: string)
    | PNum(x: real)
    | PBool(b: bool)
    | PDate(ms: int)
    | PStrs(ss: seq<string>)
    | PRows(rows: seq<Record>)
    | PMarkers(marks: seq<Marker>)
    | PBaselines(lines: seq<Baseline>)
    | PRatioTip(num: string, den: string, pct: string)   // shows `d[num] / d[den] = d[pct]%`
    | PShareTip(target: string, total: int)             // shows `resp: n (ceil(n / total * 100)%)`
    | PFn(name: string)

  /** The option names of a chart request that the pages set. */
  datatype Key =
    | Target | Title | Description | Data | ChartType | Linked | Legend | LegendTarget
    | Width | Height | FullWidth | Left | Right | PointSize | Interpolate | Color | Format
    | XLabel | YLabel | XAccessor | YAccessor | XAxis | MinX | MaxX | MinY | MaxY
    | XaxCount | XaxFormat | ShowSecondaryXLabel | YNudge | AggregateRollover
    | Markers | Baselines | Mouseover | XMouseover | YMouseover | AxesNotCompact

  /** The option as the charting library spells it. */
  function KeyName(k: Key): string {
    match k
    case Target => "target"
    case Title => "title"
    case Description => "description"
    case Data => "data"
    case ChartType => "chart_type"
    case Linked => "linked"
    case Legend => "legend"
    case LegendTarget => "legend_target"
    case Width => "width"
    case Height => "height"
    case FullWidth => "full_width"
    case Left => "left"
    case Right => "right"
    case PointSize => "point_size"
    case Interpolate => "interpolate"
    case Color => "color"
    case Format => "format"
    case XLabel => "x_label"
    case YLabel => "y_label"
    case XAccessor => "x_accessor"
    case YAccessor => "y_accessor"
    case XAxis => "x_axis"
    case MinX => "min_x"
    case MaxX => "max_x"
    case MinY => "min_y"
    case MaxY => "max_y"
    case XaxCount => "xax_count"
    case XaxFormat => "xax_format"
    case ShowSecondaryXLabel => "show_secondary_x_label"
    case YNudge => "y_nudge"
    case AggregateRollover => "aggregate_rollover"
    case Markers => "markers"
    case Baselines => "baselines"
    case Mouseover => "mouseover"
    case XMouseover => "x_mouseover"
    case YMouseover => "y_mouseover"
    case AxesNotCompact => "axes_not_compact"
  }

  /** A request: the options set, each under its name. */
  type Request = map<Key, Param>

  /** One hour and one day, in milliseconds. */
  const HourMs: int := 3600000
  const DayMs: int := 24 * HourMs

  /**
   * Days from 1970-01-01 to the first of March of year `y` of the
   * proleptic Gregorian calendar, counting years from March so that a
   * leap day ends its year.
   */
  function YearStart(y: int): int {
    y * 365 + y / 4 - y / 100 + y / 400 - 719468
  }

  /** Days from the first of March to the first of month `mp`, March being month 0. */
  function MonthStart(mp: int): int {
    (153 * mp + 2) / 5
  }

  /**
   * The JavaScript Date value of `new Date('YYYY-MM-DDTHH:00:00.000Z')`:
   * milliseconds since 1970-01-01T00:00Z, through the proleptic Gregorian
   * day count from the civil date.
   */
  function UtcMs(year: nat, month: nat, day: nat, hour: nat): int
    requires 1 <= month <= 12 && 1 <= day <= 31 && hour < 24
  {
    var y := if month <= 2 then year - 1 else year;
    var mp := if month > 2 then month - 3 else month + 9;
    var days := YearStart(y) + MonthStart(mp) + day - 1;
    (days * 24 + hour) * HourMs
  }

  /** The Gregorian leap-year rule. */
  predicate IsLeap(year: int) {
    year % 4 == 0 && (year % 100 != 0 || year % 400 == 0)
  }

  /** The number of days of a month of the Gregorian calendar. */
  function DaysIn(year: nat, month: nat): (r: nat)
    requires 1 <= month <= 12
    ensures 28 <= r <= 31
    ensures r == 29 <==> month == 2 && IsLeap(year)
  {
    if month == 2 then (if IsLeap(year) then 29 else 28)
    else if month == 4 || month == 6 || month == 9 || month == 11 then 30
    else 31
  }

  /** The calendar day after a day: the next day of the month, or the first of the next month or year. */
  function Tomorrow(year: nat, month: nat, day: nat): (r: (nat, nat, nat))
    requires 1 <= month <= 12 && 1 <= day <= DaysIn(year, month)
    ensures 1 <= r.1 <= 12 && 1 <= r.2 <= DaysIn(r.0, r.1)
    ensures r.2 == 1 <==> day == DaysIn(year, month)
    ensures r.0 != year <==> month == 12 && day == 31
  {
    if day < DaysIn(year, month) then (year, month, day + 1)
    else if month < 12 then (year, month + 1, 1)
    else (year + 1, 1, 1)
  }

  /** The epoch itself is day zero. */
  lemma UtcMsEpoch()
    ensures UtcMs(1970, 1, 1, 0) == 0
  {
    assert MonthStart(10) == 306;
  }

  /** The next hour of a day is one hour later. */
  lemma UtcMsNextHour(year: nat, month: nat, day: nat, hour: nat)
    requires 1 <= month <= 12 && 1 <= day <= 31 && hour + 1 < 24
    ensures UtcMs(year, month, day, hour + 1) == UtcMs(year, month, day, hour) + HourMs
  {
  }

  /** A year counted from March has 366 days when it ends on a leap day, 365 otherwise. */
  lemma YearStartNext(year: int)
    ensures YearStart(year) == YearStart(year - 1) + if IsLeap(year) then 366 else 365
  {
    var a, b, c := year / 4 - (year - 1) / 4, year / 100 - (year - 1) / 100, year / 400 - (year - 1) / 400;
    assert YearStart(year) == YearStart(year - 1) + 365 + a - b + c;
    QuotientStep(year, 4);
    QuotientStep(year, 100);
    QuotientStep(year, 400);
    if year % 400 == 0 {
      MultipleOf400(year);
      MultipleOf100(year);
    } else if year % 100 == 0 {
      MultipleOf100(year);
    }
  }

  /** A multiple of 400 is a multiple of 100. */
  lemma MultipleOf400(n: int)
    requires n % 400 == 0
    ensures n % 100 == 0
  {
    var k := n / 400 * 4;
    assert n == k * 100;
  }

  /** A multiple of 100 is a multiple of 4. */
  lemma MultipleOf100(n: int)
    requires n % 100 == 0
    ensures n % 4 == 0
  {
    var k := n / 100 * 25;
    assert n == k * 4;
  }

  /** Going from `n - 1` to `n`, the quotient by `d` grows by one exactly when `d` divides `n`. */
  lemma QuotientStep(n: int, d: int)
    requires d == 4 || d == 100 || d == 400
    ensures n / d - (n - 1) / d == if n % d == 0 then 1 else 0
  {
    if d == 4 {
      assert n / 4 - (n - 1) / 4 == if n % 4 == 0 then 1 else 0;
    } else if d == 100 {
      assert n / 100 - (n - 1) / 100 == if n % 100 == 0 then 1 else 0;
    } else {
      assert n / 400 - (n - 1) / 400 == if n % 400 == 0 then 1 else 0;
    }
  }

  /** The lengths of the months from March to January, as the differences of their first days. */
  lemma MonthStartNext(year: nat, month: nat)
    requires 1 <= month <= 12 && month != 2
    ensures var mp := if month > 2 then month - 3 else month + 9;
      MonthStart(mp + 1) == MonthStart(mp) + DaysIn(year, month)
  {
    if month == 1 { assert MonthStart(11) == 337 && MonthStart(10) == 306; }
    else if month == 3 { assert MonthStart(1) == 31 && MonthStart(0) == 0; }
    else if month == 4 { assert MonthStart(2) == 61; }
    else if month == 5 { assert MonthStart(3) == 92 && MonthStart(2) == 61; }
    else if month == 6 { assert MonthStart(4) == 122 && MonthStart(3) == 92; }
    else if month == 7 { assert MonthStart(5) == 153 && MonthStart(4) == 122; }
    else if month == 8 { assert MonthStart(6) == 184 && MonthStart(5) == 153; }
    else if month == 9 { assert MonthStart(7) == 214 && MonthStart(6) == 184; }
    else if month == 10 { assert MonthStart(8) == 245 && MonthStart(7) == 214; }
    else if month == 11 { assert MonthStart(9) == 275 && MonthStart(8) == 245; }
    else { assert MonthStart(10) == 306 && MonthStart(9) == 275; }
  }

  /** The first of March is the day after the last day of February, the 29th in a leap year. */
  lemma UtcMsMarchFirst(year: nat, hour: nat)
    requires hour < 24
    ensures UtcMs(year, 3, 1, hour) == UtcMs(year, 2, DaysIn(year, 2), hour) + DayMs
  {
    YearStartNext(year);
    assert MonthStart(11) == 337 && MonthStart(0) == 0;
  }

  /** Every other first of a month is the day after the last day of the month before it. */
  lemma UtcMsMonthFirst(year: nat, month: nat, hour: nat)
    requires 1 <= month <= 12 && month != 2 && hour < 24
    ensures var (y, m) := if month == 12 then (year + 1, 1) else (year, month + 1);
      UtcMs(y, m, 1, hour) == UtcMs(year, month, DaysIn(year, month), hour) + DayMs
  {
    MonthStartNext(year, month);
  }

  /**
   * Date literals count days without gaps or overlaps: the calendar day
   * after any valid date lies exactly one day later, leap days included.
   */
  lemma UtcMsTomorrow(year: nat, month: nat, day: nat, hour: nat)
    requires 1 <= month <= 12 && 1 <= day <= DaysIn(year, month) && hour < 24
    ensures var (y, m, d) := Tomorrow(year, month, day);
      UtcMs(y, m, d, hour) == UtcMs(year, month, day, hour) + DayMs
  {
    if day == DaysIn(year, month) {
      if month == 2 {
        UtcMsMarchFirst(year, hour);
      } else {
        UtcMsMonthFirst(year, month, hour);
      }
    }
  }

  /**
   * The charts a page requests with `draw`, one element of `xs` after
   * another; the first call that throws ends the sequence with its error.
   */
  function DrawAll<S>(xs: seq<S>, draw: S -> Result<Request>): (r: Result<seq<Request>>)
    ensures r.Ok? <==> forall i :: 0 <= i < |xs| ==> draw(xs[i]).Ok?
    ensures r.Ok? ==> |r.value| == |xs| && forall i :: 0 <= i < |xs| ==> draw(xs[i]) == Ok(r.value[i])
    ensures r.Err? ==> exists i :: 0 <= i < |xs| && draw(xs[i]) == Err(r.fault) && forall j :: 0 <= j < i ==> draw(xs[j]).Ok?
  {
    if xs == [] then Ok([])
    else
      var init := xs[..|xs| - 1];
      assert forall i :: 0 <= i < |init| ==> init[i] == xs[i];
      match DrawAll(init, draw)
      case Err(f) => Err(f)
      case Ok(acc) =>
        match draw(xs[|xs| - 1])
        case Err(f) => Err(f)
        case Ok(q) => Ok(acc + [q])
  }

  /** One more call: a failure ends the sequence with its error, a success adds its chart. */
  lemma DrawAllNext<S>(xs: seq<S>, draw: S -> Result<Request>, q: nat)
    requires q < |xs| && DrawAll(xs[..q], draw).Ok?
    ensures DrawAll(xs[..q + 1], draw) ==
      match draw(xs[q])
      case Err(f) => Err(f)
      case Ok(c) => Ok(DrawAll(xs[..q], draw).value + [c])
  {
    assert xs[..q + 1][..q] == xs[..q];
  }
}
