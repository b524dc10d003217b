/**
 * The date handling of `generateReport`: the two query dates, the move of the
 * start to the first and of the end to the last millisecond of their UTC days
 * (`setUTCHours(0, 0, 0, 0)` and `setUTCHours(23, 59, 59, 999)`), and the checks
 * that answer 400.
 */
module ReportDates {
  import opened Wrappers
  import opened Responses

  const MS_PER_DAY: int := 86_400_000
  /** The largest magnitude of a JavaScript time value (ECMAScript TimeClip); exactly 10^8 days. */
  const MAX_TIME: int := 8_640_000_000_000_000

  /** A valid (non-NaN) JavaScript time value. */
  type TimeValue = t: int | -MAX_TIME <= t <= MAX_TIME

  /**
   * A date query parameter after `new Date(...)`: missing or empty (falsy in
   * JavaScript), a string that does not parse, or a parsed time value.
   */
  datatype DateArg = Absent | Unparsable | At(ms: TimeValue)

  /** The UTC day number of `t`: `Math.floor(t / MS_PER_DAY)` (Dafny's `/` floors for a positive divisor). */
  function DayOf(t: int): int {
    t / MS_PER_DAY
  }

  /** `setUTCHours(0, 0, 0, 0)`: midnight UTC of the day of `t`. */
  function StartOfDay(t: TimeValue): (r: TimeValue)
    ensures r % MS_PER_DAY == 0 && r <= t < r + MS_PER_DAY
    ensures DayOf(r) == DayOf(t)
  {
    DayOf(t) * MS_PER_DAY
  }

  /**
   * `setUTCHours(23, 59, 59, 999)`: the last millisecond of the UTC day of `t`, or
   * `None` (NaN) when that instant lies beyond the largest time value, which
   * happens for the last representable instant alone.
   */
  function EndOfDay(t: TimeValue): (r: Option<TimeValue>)
    ensures r.None? <==> t == MAX_TIME
    ensures r.Some? ==> r.value % MS_PER_DAY == MS_PER_DAY - 1 && t <= r.value < t + MS_PER_DAY
    ensures r.Some? ==> DayOf(r.value) == DayOf(t)
  {
    var e := DayOf(t) * MS_PER_DAY + MS_PER_DAY - 1;
    if e <= MAX_TIME then Some(e) else None
  }

  /**
   * The checks of lines 105-122: both dates must be given (else 400 "Start date
   * and end date are required") and both must be valid after normalisation
   * (else 400 "Invalid date format"); on success the normalised bounds.
   */
  function NormaliseRange(startArg: DateArg, endArg: DateArg): (r: Result<(TimeValue, TimeValue), ApiError>)
    ensures r == Err(MissingDates) <==> startArg.Absent? || endArg.Absent?
    ensures r.Ok? <==> startArg.At? && endArg.At? && endArg.ms != MAX_TIME
    ensures r.Err? ==> r.error == MissingDates || r.error == InvalidDateFormat
    ensures r.Ok? ==> r.value.0 == StartOfDay(startArg.ms) && Some(r.value.1) == EndOfDay(endArg.ms)
  {
    if startArg.Absent? || endArg.Absent? then Err(MissingDates)
    else if startArg.Unparsable? || endArg.Unparsable? then Err(InvalidDateFormat)
    else
      match EndOfDay(endArg.ms)
      case None => Err(InvalidDateFormat)
      case Some(e) => Ok((StartOfDay(startArg.ms), e))
  }

  /**
   * The normalised range covers whole UTC days: every instant of the start's day
   * through every instant of the end's day, and nothing else.
   */
  lemma RangeCoversWholeDays(startArg: DateArg, endArg: DateArg, t: int)
    requires NormaliseRange(startArg, endArg).Ok?
    ensures var (s, e) := NormaliseRange(startArg, endArg).value;
            s <= t <= e <==> DayOf(startArg.ms) <= DayOf(t) <= DayOf(endArg.ms)
  {
  }

  /** A start day after the end day gives an empty range: the start lies after the end. */
  lemma InvertedRangeIsEmpty(startArg: DateArg, endArg: DateArg)
    requires NormaliseRange(startArg, endArg).Ok?
    requires DayOf(startArg.ms) > DayOf(endArg.ms)
    ensures NormaliseRange(startArg, endArg).value.0 > NormaliseRange(startArg, endArg).value.1
  {
  }
}
