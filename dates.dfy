/** Calendar dates as the source stores them ("YYYY-MM-DD" strings), whole-day
    arithmetic on them, and the "YYYY-MM" month keys of the budget rollover. */
module Dates {
  import opened Strings

  /** A calendar date: the text "YYYY-MM-DD" read as its three fields. */
  datatype Date = Date(year: int, month: int, day: int)

  predicate IsLeapYear(y: int)
  {
    y % 4 == 0 && (y % 100 != 0 || y % 400 == 0)
  }

  function DaysInMonth(y: int, m: int): (n: int)
    requires 1 <= m <= 12
    ensures 28 <= n <= 31
  {
    if m == 2 then (if IsLeapYear(y) then 29 else 28)
    else if m == 4 || m == 6 || m == 9 || m == 11 then 30
    else 31
  }

  predicate ValidDate(d: Date)
  {
    1 <= d.month <= 12 && 1 <= d.day <= DaysInMonth(d.year, d.month)
  }

  /** Days from 1 March of year 0 to 1 March of year `y` of the proleptic
      Gregorian calendar (years counted from March, so that the leap day ends
      the year). Dafny's `/` on `int` rounds down for a positive divisor, as the
      count needs. */
  function MarchStart(y: int): int
  {
    var era := y / 400;
    var yoe := y - era * 400;
    era * 146097 + yoe * 365 + yoe / 4 - yoe / 100
  }

  /** Days since 1970-01-01 of the date's midnight: what `new Date("YYYY-MM-DD")`
      yields, divided by the length of a day. An out-of-range day rolls over
      into the next month, as the source's `Date` does. */
  function DayNumber(d: Date): int
  {
    var y := if d.month <= 2 then d.year - 1 else d.year;
    var mp := if d.month > 2 then d.month - 3 else d.month + 9;
    MarchStart(y) + (153 * mp + 2) / 5 + d.day - 1 - 719468
  }

  lemma StepBy4(a: int)
    requires a >= 1
    ensures a / 4 - (a - 1) / 4 == if a % 4 == 0 then 1 else 0
  {
  }

  lemma StepBy100(a: int)
    requires a >= 1
    ensures a / 100 - (a - 1) / 100 == if a % 100 == 0 then 1 else 0
  {
  }

  lemma CycleResidues(era: int, r: int)
    ensures (era * 400 + r) % 4 == r % 4 && (era * 400 + r) % 100 == r % 100
  {
    assert era * 400 + r == (era * 100) * 4 + r;
    assert era * 400 + r == (era * 4) * 100 + r;
  }

  /** A March-to-February year has 366 days exactly when its February is a leap
      February. */
  lemma YearLength(y: int)
    ensures MarchStart(y) - MarchStart(y - 1) == if IsLeapYear(y) then 366 else 365
  {
    var era := y / 400;
    var yoe := y - era * 400;
    if yoe == 0 {
      assert (y - 1) / 400 == era - 1;
      CycleResidues(era, 0);
    } else {
      assert (y - 1) / 400 == era;
      StepBy4(yoe);
      StepBy100(yoe);
      CycleResidues(era, yoe);
    }
  }

  /** The calendar day after `d`. */
  function NextDay(d: Date): (r: Date)
    requires ValidDate(d)
    ensures ValidDate(r)
  {
    if d.day < DaysInMonth(d.year, d.month) then Date(d.year, d.month, d.day + 1)
    else if d.month < 12 then Date(d.year, d.month + 1, 1)
    else Date(d.year + 1, 1, 1)
  }

  /** The day count advances by one from each valid date to the next, across
      month ends, year ends and leap days. */
  lemma NextDayCounts(d: Date)
    requires ValidDate(d)
    ensures DayNumber(NextDay(d)) == DayNumber(d) + 1
  {
    if d.day == DaysInMonth(d.year, d.month) {
      if d.month == 2 {
        FebruaryEndCounts(d);
      } else if d.month == 12 {
        MonthLength(d.year, 12);
      } else {
        MonthLength(d.year, d.month);
      }
    }
  }

  /** From the last day of February to 1 March the March-based year changes. */
  lemma FebruaryEndCounts(d: Date)
    requires ValidDate(d) && d.month == 2 && d.day == DaysInMonth(d.year, 2)
    ensures DayNumber(Date(d.year, 3, 1)) == DayNumber(d) + 1
  {
    YearLength(d.year);
    assert (153 * 11 + 2) / 5 == 337;
  }

  /** Outside February, the days from one month's start to the next, in the
      March-based count, are the month's length. */
  lemma MonthLength(y: int, m: int)
    requires 1 <= m <= 12 && m != 2
    ensures var mp := if m > 2 then m - 3 else m + 9;
            (153 * (mp + 1) + 2) / 5 - (153 * mp + 2) / 5 == DaysInMonth(y, m)
  {
  }

  /** A "YYYY-MM" key. */
  datatype MonthKey = MonthKey(year: int, month: int)

  predicate ValidMonthKey(k: MonthKey)
  {
    1 <= k.month <= 12
  }

  /** `date.slice(0, 7)`: the month a date falls in. */
  function MonthOf(d: Date): (k: MonthKey)
    ensures ValidDate(d) ==> ValidMonthKey(k)
  {
    MonthKey(d.year, d.month)
  }

  function NextMonth(k: MonthKey): MonthKey
  {
    if k.month == 12 then MonthKey(k.year + 1, 1) else MonthKey(k.year, k.month + 1)
  }

  /** The calendar month immediately before `k`; January's is December of the
      year before. */
  function PrevMonth(k: MonthKey): (p: MonthKey)
    ensures p != k
    ensures ValidMonthKey(k) ==> ValidMonthKey(p) && NextMonth(p) == k
    ensures k.month == 1 ==> p == MonthKey(k.year - 1, 12)
  {
    if k.month == 1 then MonthKey(k.year - 1, 12) else MonthKey(k.year, k.month - 1)
  }

  /** The same day one year earlier: `date.setFullYear(date.getFullYear() - 1)`
      (29 February lands on 1 March, as the day count rolls over). */
  function OneYearBefore(d: Date): Date
  {
    Date(d.year - 1, d.month, d.day)
  }

  /** A reading of the clock: the calendar day and the part of it elapsed
      since midnight, as a fraction of a day. */
  datatype Clock = Clock(day: Date, elapsed: real)

  /** A clock reading whose elapsed part lies within its day. */
  type Instant = c: Clock | 0.0 <= c.elapsed < 1.0 witness Clock(Date(1970, 1, 1), 0.0)

  /** The instant in days on the day count; a stored date is its midnight. */
  function Timestamp(now: Instant): (t: real)
    ensures t.Floor == DayNumber(now.day)
  {
    DayNumber(now.day) as real + now.elapsed
  }

  /** A number as text: a minus sign for negatives, then `width` digits at least. */
  function SignedText(n: int, width: nat): (r: string)
    ensures forall i :: 0 <= i < |r| ==> IsDigit(r[i]) || r[i] == '-'
  {
    if n < 0 then "-" + PadNat(-n, width) else PadNat(n, width)
  }

  /** The stored "YYYY-MM-DD" text of a date. */
  function IsoText(d: Date): (r: string)
    ensures forall i :: 0 <= i < |r| ==> IsDigit(r[i]) || r[i] == '-'
  {
    SignedText(d.year, 4) + "-" + SignedText(d.month, 2) + "-" + SignedText(d.day, 2)
  }

  /** Text of the "YYYY-MM-DD" shape: four digits, a hyphen, two digits, a
      hyphen and two digits. */
  predicate IsIsoText(s: string)
  {
    |s| == 10 && s[4] == '-' && s[7] == '-'
    && AllDigits(s[..4]) && AllDigits(s[5..7]) && AllDigits(s[8..])
  }

  /** The date that "YYYY-MM-DD" text names. */
  function ReadIsoDate(s: string): Date
    requires IsIsoText(s)
  {
    Date(ParseNat(s[..4]), ParseNat(s[5..7]), ParseNat(s[8..]))
  }

  /** A valid date of a four-digit year is stored as ten characters,
      "YYYY-MM-DD", that read back as the date. */
  lemma IsoRoundTrip(d: Date)
    requires ValidDate(d) && 0 <= d.year <= 9999
    ensures IsIsoText(IsoText(d))
    ensures ReadIsoDate(IsoText(d)) == d
  {
    var y, m, dd := PadNat(d.year, 4), PadNat(d.month, 2), PadNat(d.day, 2);
    PadNatWidth(d.year, 4);
    PadNatWidth(d.month, 2);
    PadNatWidth(d.day, 2);
    var r := IsoText(d);
    assert r == y + "-" + m + "-" + dd;
    assert r[..4] == y && r[5..7] == m && r[8..] == dd;
  }
}
