/** src/tools/Utilities/AgeCalculator.tsx: the age between a date of birth and
    today in years, months and days, computed by subtracting the fields and
    borrowing a month, then a year. `new Date(dob)` and `new Date()` are
    parameters: the calendar dates they denote. */
module AgeCalculator {

  import opened Wrappers

  /** A date as `Date` reports it: the full year, the month counted from 0
      (`getMonth`) and the day of the month (`getDate`). */
  datatype Date = Date(year: int, month: int, day: int)

  /** A Gregorian leap year. */
  predicate LeapYear(y: int) {
    y % 4 == 0 && (y % 100 != 0 || y % 400 == 0)
  }

  /** The length of a month in the Gregorian calendar. */
  function DaysInMonth(year: int, month: int): (n: int)
    requires 0 <= month < 12
    ensures 28 <= n <= 31
    ensures n == 29 <==> month == 1 && LeapYear(year)
  {
    if month == 1 then (if LeapYear(year) then 29 else 28)
    else if month == 3 || month == 5 || month == 8 || month == 10 then 30
    else 31
  }

  /** A date `Date` can hold. */
  predicate ValidDate(d: Date) {
    0 <= d.month < 12 && 1 <= d.day <= DaysInMonth(d.year, d.month)
  }

  /** `new Date(y, m, 0).getDate()`: day 0 of a month is the last day of the
      month before it, December of the year before for January. */
  function LastMonthDays(today: Date): (n: int)
    requires 0 <= today.month < 12
    ensures 28 <= n <= 31
    ensures today.month == 0 ==> n == 31
  {
    if today.month == 0 then DaysInMonth(today.year - 1, 11)
    else DaysInMonth(today.year, today.month - 1)
  }

  datatype Age = Age(years: int, months: int, days: int)

  /** Whether the day of the month has not yet reached the birth day, so a
      month is borrowed. */
  predicate DayBorrow(birth: Date, today: Date) {
    today.day < birth.day
  }

  /** The whole months from birth to today: the calendar months between them,
      less one when the day of the month has not yet come round. */
  function ElapsedMonths(birth: Date, today: Date): int {
    12 * (today.year - birth.year) + (today.month - birth.month) - (if DayBorrow(birth, today) then 1 else 0)
  }

  /** The reference age: the elapsed months as whole years and the months
      left, and the days since the last monthly anniversary, counted through
      the month before today's when one was borrowed. */
  function ExpectedAge(birth: Date, today: Date): Age
    requires 0 <= today.month < 12
  {
    var m := ElapsedMonths(birth, today);
    Age(m / 12, m % 12,
      today.day - birth.day + (if DayBorrow(birth, today) then LastMonthDays(today) else 0))
  }

  /** Writing 12 a + x with -12 <= x < 12 as whole years and months. */
  lemma YearsAndMonths(a: int, x: int)
    requires -12 <= x < 12
    ensures (12 * a + x) / 12 == (if x < 0 then a - 1 else a)
    ensures (12 * a + x) % 12 == (if x < 0 then x + 12 else x)
  {
    if x < 0 {
      assert 12 * a + x == 12 * (a - 1) + (x + 12);
    }
  }

  class Calculator {
    var dob: string
    var result: Option<Age>

    constructor ()
      ensures dob == "" && result == None
    {
      dob, result := "", None;
    }

    /** `calculateAge`: an empty date of birth leaves the result alone;
        otherwise the fields are subtracted, a negative day count borrows the
        month before today's, and a negative month count borrows a year. */
    method CalculateAge(birth: Date, today: Date)
      requires ValidDate(birth) && ValidDate(today)
      modifies this
      ensures dob == old(dob)
      ensures dob == "" ==> result == old(result)
      ensures dob != "" ==> result == Some(ExpectedAge(birth, today))
    {
      if dob == "" {
        return;
      }
      var years := today.year - birth.year;
      var months := today.month - birth.month;
      var days := today.day - birth.day;
      if days < 0 {
        months := months - 1;
        var lastMonth := LastMonthDays(today);
        days := days + lastMonth;
      }
      YearsAndMonths(years, months);
      if months < 0 {
        years := years - 1;
        months := months + 12;
      }
      result := Some(Age(years, months, days));
    }
  }

  /** The months are always a whole number between 0 and 11, and years and
      months together give the whole months elapsed. */
  lemma MonthsInRange(birth: Date, today: Date)
    requires 0 <= today.month < 12
    ensures 0 <= ExpectedAge(birth, today).months <= 11
    ensures 12 * ExpectedAge(birth, today).years + ExpectedAge(birth, today).months == ElapsedMonths(birth, today)
  {
  }

  /** On or after the birth day of the month nothing is borrowed: the days are
      the plain difference, and the months the plain difference modulo a year. */
  lemma NoDayBorrow(birth: Date, today: Date)
    requires ValidDate(birth) && ValidDate(today)
    requires today.day >= birth.day
    ensures ExpectedAge(birth, today).days == today.day - birth.day
    ensures today.month >= birth.month ==>
      ExpectedAge(birth, today) == Age(today.year - birth.year, today.month - birth.month, today.day - birth.day)
  {
    if today.month >= birth.month {
      YearsAndMonths(today.year - birth.year, today.month - birth.month);
    }
  }

  /** Before the birth day of the month one month is given up and the length
      of the month before today's is added to the days, which then stay below
      that length. */
  lemma WithDayBorrow(birth: Date, today: Date)
    requires ValidDate(birth) && ValidDate(today)
    requires today.day < birth.day
    ensures ExpectedAge(birth, today).days == today.day - birth.day + LastMonthDays(today)
    ensures ExpectedAge(birth, today).days < LastMonthDays(today)
    ensures 12 * ExpectedAge(birth, today).years + ExpectedAge(birth, today).months
      == 12 * (today.year - birth.year) + (today.month - birth.month) - 1
  {
  }

  /** The days are never negative when the birth day fits in the month before
      today's. */
  lemma DaysNonNegative(birth: Date, today: Date)
    requires ValidDate(birth) && ValidDate(today)
    requires birth.day <= LastMonthDays(today)
    ensures 0 <= ExpectedAge(birth, today).days <= 30
  {
  }

  /** They can be negative otherwise: born on the 31st, on 1 March 2023 the
      borrowed month is February's 28 days and the days come out as -2. */
  lemma NegativeDays()
    ensures ExpectedAge(Date(2000, 0, 31), Date(2023, 2, 1)).days == -2
  {
    assert !LeapYear(2023);
  }

  /** A birth date not after today gives a non-negative age in years, and on
      the birthday itself exactly the difference of the years. */
  lemma NotAfterToday(birth: Date, today: Date)
    requires ValidDate(birth) && ValidDate(today)
    requires birth.year < today.year
      || (birth.year == today.year && birth.month < today.month)
      || (birth.year == today.year && birth.month == today.month && birth.day <= today.day)
    ensures ExpectedAge(birth, today).years >= 0
    ensures birth.month == today.month && birth.day == today.day ==>
      ExpectedAge(birth, today) == Age(today.year - birth.year, 0, 0)
  {
    assert ElapsedMonths(birth, today) >= 0;
    if birth.month == today.month && birth.day == today.day {
      YearsAndMonths(today.year - birth.year, 0);
    }
  }
}
