// Calendar arithmetic behind `Date`: the proleptic Gregorian calendar on a
// time line of milliseconds since 1970-01-01T00:00:00Z, and the
// `YYYY-MM-DD` keys the application derives from it.

module Dates {
  import opened Base

  const MsPerDay: int := 24 * 60 * 60 * 1000

  /** A calendar date: month 1..12, day 1..31 when produced by CivilFromDays. */
  datatype Civil = Civil(year: int, month: nat, day: nat)

  /** Splits a day of a 400-year era (counted from 1 March of its first
      year) into the year of the era and the day within that year. */
  function SplitEra(doe: int): (r: (int, int))
    requires 0 <= doe < 146097
    ensures 0 <= r.0 < 400 && 0 <= r.1 <= 365
    ensures doe == 365 * r.0 + r.0 / 4 - r.0 / 100 + r.1
  {
    var cen := if doe / 36524 < 3 then doe / 36524 else 3;
    var r1 := doe - 36524 * cen;
    var quad := r1 / 1461;
    var r2 := r1 - 1461 * quad;
    var yr := if r2 / 365 < 3 then r2 / 365 else 3;
    var yoe := 100 * cen + 4 * quad + yr;
    assert yoe / 4 == 25 * cen + quad;
    assert yoe / 100 == cen;
    (yoe, r2 - 365 * yr)
  }

  /** The month of a day counted from 1 March: 0 is March, 11 is February. */
  function MonthIndex(doy: int): (mp: int)
    requires 0 <= doy <= 365
    ensures 0 <= mp <= 11
    ensures 0 <= doy - (153 * mp + 2) / 5 <= 30
  {
    (5 * doy + 2) / 153
  }

  /** The calendar date of day number `z` (day 0 is 1970-01-01). */
  function CivilFromDays(z: int): (c: Civil)
    ensures 1 <= c.month <= 12 && 1 <= c.day <= 31
  {
    var shifted := z + 719468;
    var era := shifted / 146097;
    var r := SplitEra(shifted % 146097);
    var mp := MonthIndex(r.1);
    var m := if mp < 10 then mp + 3 else mp - 9;
    Civil(r.0 + era * 400 + (if m <= 2 then 1 else 0), m, r.1 - (153 * mp + 2) / 5 + 1)
  }

  /** Days from 1 March to the first day of month `m`. */
  function MonthStart(m: int): int {
    (153 * (if m > 2 then m - 3 else m + 9) + 2) / 5
  }

  /** Days from 1 March of year 0 to 1 March of year `y`. */
  function MarchDays(y: int): int {
    var era := y / 400;
    var yoe := y - era * 400;
    era * 146097 + 365 * yoe + yoe / 4 - yoe / 100
  }

  /** The day number of a calendar date: the inverse of CivilFromDays. */
  function DaysFromCivil(c: Civil): int {
    MarchDays(if c.month <= 2 then c.year - 1 else c.year) + MonthStart(c.month) + c.day - 1 - 719468
  }

  lemma MonthRoundTrip(doy: int)
    requires 0 <= doy <= 365
    ensures var mp := MonthIndex(doy);
      var m := if mp < 10 then mp + 3 else mp - 9;
      MonthStart(m) + (doy - (153 * mp + 2) / 5 + 1) - 1 == doy && (m <= 2 <==> mp >= 10)
  {
  }

  lemma MarchDaysOf(era: int, yoe: int)
    requires 0 <= yoe < 400
    ensures MarchDays(era * 400 + yoe) == era * 146097 + 365 * yoe + yoe / 4 - yoe / 100
  {
    assert (era * 400 + yoe) / 400 == era;
  }

  /** The calendar date of day `z` in terms of its era: the year counted
      from March, and the day within that year. */
  lemma CivilFromDaysParts(z: int)
    ensures var shifted := z + 719468;
      var r := SplitEra(shifted % 146097);
      var c := CivilFromDays(z);
      (if c.month <= 2 then c.year - 1 else c.year) == shifted / 146097 * 400 + r.0 &&
      MonthStart(c.month) + c.day - 1 == r.1
  {
    MonthRoundTrip(SplitEra((z + 719468) % 146097).1);
  }

  /** Every day number is recovered from its calendar date, so distinct days
      have distinct dates. */
  lemma DaysRoundTrip(z: int)
    ensures DaysFromCivil(CivilFromDays(z)) == z
  {
    var shifted := z + 719468;
    var era := shifted / 146097;
    var doe := shifted % 146097;
    var r := SplitEra(doe);
    CivilFromDaysParts(z);
    MarchDaysOf(era, r.0);
    assert shifted == era * 146097 + doe;
  }

  /** The UTC calendar date of an instant; `/` rounds toward minus infinity
      here, as the day of an instant before 1970 requires. */
  function UtcDate(ms: int): Civil {
    CivilFromDays(ms / MsPerDay)
  }

  /** What `new Date()` reads on a client: the instant (`Date.now()`) and
      the local calendar date (`getFullYear`, `getMonth() + 1`, `getDate`),
      which the runtime's time-zone rules derive from the instant. */
  datatype Clock = Clock(nowMs: int, today: Civil)

  /** The year as `toISOString` writes it: four digits for 0..9999, else a
      sign and six digits. */
  function IsoYear(y: int): (r: string)
    ensures |r| >= 4
  {
    if 0 <= y <= 9999 then PadZero(y, 4)
    else if y < 0 then "-" + PadZero(-y, 6)
    else "+" + PadZero(y, 6)
  }

  /** The date part of `toISOString()`. */
  function IsoDate(c: Civil): (r: string)
    ensures |r| >= 10
  {
    IsoYear(c.year) + "-" + PadZero(c.month, 2) + "-" + PadZero(c.day, 2)
  }

  /** Hours, minutes, seconds and milliseconds into the UTC day. */
  function TimeOfDay(ms: int): (r: (nat, nat, nat, nat))
    ensures r.0 < 24 && r.1 < 60 && r.2 < 60 && r.3 < 1000
  {
    var t := ms % MsPerDay;
    (t / 3600000, t / 60000 % 60, t / 1000 % 60, t % 1000)
  }

  /** `HH:mm:ss`. */
  function ClockText(ms: int): string {
    var t := TimeOfDay(ms);
    PadZero(t.0, 2) + ":" + PadZero(t.1, 2) + ":" + PadZero(t.2, 2)
  }

  /** `toISOString()`: `YYYY-MM-DDTHH:mm:ss.sssZ`. */
  function IsoString(ms: int): (r: string)
    ensures |r| >= 10 && r[..10] == IsoDate(UtcDate(ms))[..10]
  {
    var d := IsoDate(UtcDate(ms));
    var r := d + ("T" + ClockText(ms) + "." + PadZero(TimeOfDay(ms).3, 3) + "Z");
    TakeOfAppend(d, "T" + ClockText(ms) + "." + PadZero(TimeOfDay(ms).3, 3) + "Z", 10);
    r
  }

  const WeekdayNames: seq<string> := ["Sun", "Mon", "Tue", "Wed", "Thu", "Fri", "Sat"]
  const MonthNames: seq<string> :=
    ["Jan", "Feb", "Mar", "Apr", "May", "Jun", "Jul", "Aug", "Sep", "Oct", "Nov", "Dec"]

  /** `toUTCString()`: `Www, DD Mmm YYYY HH:mm:ss GMT`; 1970-01-01 was a Thursday. */
  function UtcString(ms: int): string {
    var c := UtcDate(ms);
    var year := if c.year < 0 then "-" + PadZero(-c.year, 4) else PadZero(c.year, 4);
    WeekdayNames[(ms / MsPerDay + 4) % 7] + ", " + PadZero(c.day, 2) + " " +
    MonthNames[c.month - 1] + " " + year + " " + ClockText(ms) + " GMT"
  }

  /** `new Date(ms).toISOString().slice(0, 10)`: the first ten characters,
      which for the years 0..9999 are exactly `YYYY-MM-DD`. */
  function DayKey(ms: int): (r: string)
    ensures r == IsoDate(UtcDate(ms))[..10]
  {
    Take(IsoString(ms), 10)
  }

  /** In the years 0..9999 the key is ten characters, `YYYY-MM-DD`, and
      reads back as the date it was made from. */
  lemma {:induction false} IsoDateReadBack(c: Civil)
    requires 0 <= c.year <= 9999 && 1 <= c.month <= 12 && 1 <= c.day <= 31
    ensures var k := IsoDate(c);
      |k| == 10 && k[4] == '-' && k[7] == '-' &&
      AllDigits(k[..4]) && AllDigits(k[5..7]) && AllDigits(k[8..]) &&
      DigitsValue(k[..4]) == c.year && DigitsValue(k[5..7]) == c.month &&
      DigitsValue(k[8..]) == c.day
  {
    var y := PadZero(c.year, 4);
    var m := PadZero(c.month, 2);
    var d := PadZero(c.day, 2);
    var k := IsoDate(c);
    assert k == y + "-" + m + "-" + d;
    assert k[..4] == y && k[5..7] == m && k[8..] == d;
    PadZeroValue(c.year, 4);
    PadZeroValue(c.month, 2);
    PadZeroValue(c.day, 2);
  }

  /** The key is the same for every instant of one UTC day, and two
      different days of the years 0..9999 never share a key. */
  lemma SameKeyIffSameDay(ms1: int, ms2: int)
    requires 0 <= UtcDate(ms1).year <= 9999 && 0 <= UtcDate(ms2).year <= 9999
    ensures DayKey(ms1) == DayKey(ms2) <==> ms1 / MsPerDay == ms2 / MsPerDay
  {
    if ms1 / MsPerDay != ms2 / MsPerDay {
      DistinctDates(ms1 / MsPerDay, ms2 / MsPerDay);
    }
  }

  lemma DistinctDates(z1: int, z2: int)
    requires z1 != z2
    requires 0 <= CivilFromDays(z1).year <= 9999 && 0 <= CivilFromDays(z2).year <= 9999
    ensures IsoDate(CivilFromDays(z1))[..10] != IsoDate(CivilFromDays(z2))[..10]
  {
    var c1 := CivilFromDays(z1);
    var c2 := CivilFromDays(z2);
    DaysRoundTrip(z1);
    DaysRoundTrip(z2);
    IsoDateReadBack(c1);
    IsoDateReadBack(c2);
    if IsoDate(c1)[..10] == IsoDate(c2)[..10] {
      TakeAll(IsoDate(c1));
      TakeAll(IsoDate(c2));
      IsoDateInjective(c1, c2);
    }
  }

  /** Two dates of the years 0..9999 with the same `YYYY-MM-DD` text are
      the same date. */
  lemma IsoDateInjective(c1: Civil, c2: Civil)
    requires 0 <= c1.year <= 9999 && 1 <= c1.month <= 12 && 1 <= c1.day <= 31
    requires 0 <= c2.year <= 9999 && 1 <= c2.month <= 12 && 1 <= c2.day <= 31
    requires IsoDate(c1) == IsoDate(c2)
    ensures c1 == c2
  {
    IsoDateReadBack(c1);
    IsoDateReadBack(c2);
  }
}
