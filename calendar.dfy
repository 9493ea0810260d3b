/**
 * Instants and the local calendar. An instant is an integer number of milliseconds
 * since 1970-01-01T00:00 local time; the calendar is the proleptic Gregorian one with
 * no time zone offset and no daylight saving.
 */
module Calendar {

  type Instant = int

  const HourMs: int := 3_600_000
  const DayMs: int := 86_400_000

  /** Whole days since 1970-01-01 (floor division, so instants before 1970 land on the right day). */
  function DayNumber(t: Instant): (r: int)
    ensures r * DayMs <= t < r * DayMs + DayMs
  {
    t / DayMs
  }

  /** Milliseconds since local midnight. */
  function MsOfDay(t: Instant): (r: int)
    ensures 0 <= r < DayMs
    ensures t == DayNumber(t) * DayMs + r
  {
    t % DayMs
  }

  /** `getDay()`: 0 is Sunday; 1970-01-01 was a Thursday. */
  function Weekday(t: Instant): (r: int)
    ensures 0 <= r < 7
    ensures r == 0 <==> (DayNumber(t) - 3) % 7 == 0
  {
    (DayNumber(t) + 4) % 7
  }

  /** The day after is the next day of the week, Saturday wrapping round to Sunday. */
  lemma NextDayWeekday(t: Instant)
    ensures Weekday(t + DayMs) == (Weekday(t) + 1) % 7
  {
    ShiftByDays(t, -1);
  }

  /** A calendar date: `getFullYear()`, `getMonth() + 1`, `getDate()`. */
  datatype Date = Date(year: int, month: int, day: int)

  /** Gregorian date of a day number (H. Hinnant's civil_from_days). */
  function CivilFromDays(days: int): (d: Date)
    ensures 1 <= d.month <= 12 && 1 <= d.day <= 31
  {
    var z := days + 719468;
    var era := z / 146097;
    var doe := z - era * 146097;
    var yoe := (doe - doe / 1460 + doe / 36524 - doe / 146096) / 365;
    var doy := doe - (365 * yoe + yoe / 4 - yoe / 100);
    var mp := (5 * doy + 2) / 153;
    var day := doy - (153 * mp + 2) / 5 + 1;
    var month := if mp < 10 then mp + 3 else mp - 9;
    Date(if month <= 2 then yoe + era * 400 + 1 else yoe + era * 400, month, day)
  }

  /** The local date of an instant; `toDateString()` and `toLocaleDateString()` are functions of it. */
  function DateOf(t: Instant): (d: Date)
    ensures 1 <= d.month <= 12 && 1 <= d.day <= 31
  {
    CivilFromDays(DayNumber(t))
  }

  /** Moving an instant by whole days keeps its time of day and moves its day number. */
  lemma ShiftByDays(t: Instant, k: int)
    ensures DayNumber(t - k * DayMs) == DayNumber(t) - k
    ensures MsOfDay(t - k * DayMs) == MsOfDay(t)
  {
    var d, m := DayNumber(t), MsOfDay(t);
    assert t - k * DayMs == (d - k) * DayMs + m;
  }

  /**
   * `startWeek = new Date(now); startWeek.setDate(now.getDate() - now.getDay())`:
   * the Sunday of the current week, at the same time of day as now.
   */
  function WeekStart(now: Instant): (r: Instant)
    ensures r <= now && now - r < 7 * DayMs
    ensures Weekday(r) == 0
    ensures MsOfDay(r) == MsOfDay(now)
    ensures DayNumber(r) == DayNumber(now) - Weekday(now)
  {
    ShiftByDays(now, Weekday(now));
    now - Weekday(now) * DayMs
  }

  /** `new Date("YYYY-MM-DD")` for the value of a date input: midnight at the start of that day. */
  function DateInputInstant(day: int): (r: Instant)
    ensures DayNumber(r) == day && MsOfDay(r) == 0
  {
    day * DayMs
  }
}
