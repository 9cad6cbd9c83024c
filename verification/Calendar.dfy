/** Civil dates and canonical UTC timestamps (`backend/src/delivery.rs`). */
module Calendar {
  import opened Common

  datatype Civil = Civil(year: int, month: int, day: int)

  // ---------- the Gregorian calendar ----------

  predicate IsLeap(year: int) {
    year % 4 == 0 && (year % 100 != 0 || year % 400 == 0)
  }

  predicate ValidCivilDate(year: int, month: int, day: int) {
    var days :=
      if month in {1, 3, 5, 7, 8, 10, 12} then 31
      else if month in {4, 6, 9, 11} then 30
      else if month == 2 then (if IsLeap(year) then 29 else 28)
      else 0;
    1 <= day <= days
  }

  predicate Valid(c: Civil) {
    ValidCivilDate(c.year, c.month, c.day)
  }

  /** The reference: what "the next day" means on the wall calendar. */
  function NextDay(c: Civil): Civil {
    if ValidCivilDate(c.year, c.month, c.day + 1) then Civil(c.year, c.month, c.day + 1)
    else if c.month < 12 then Civil(c.year, c.month + 1, 1)
    else Civil(c.year + 1, 1, 1)
  }

  /** Walk the wall calendar `n` days forward from the Unix epoch. */
  function WalkFromEpoch(n: nat): Civil {
    if n == 0 then Civil(1970, 1, 1) else NextDay(WalkFromEpoch(n - 1))
  }

  // ---------- the closed forms in the source ----------

  /** Days of a March-based year `yoe` of a 400-year era that precede its first day. */
  function YearStart(yoe: int): int {
    yoe * 365 + yoe / 4 - yoe / 100
  }

  /** Rust's `/` truncates; the source shifts negative operands first. */
  function EraOf(x: int, span: int): int
    requires span > 0
  {
    if x >= 0 then x / span else -((span - 1 - x) / span)
  }

  /** Day of the March-based year, counted from 1 March. */
  function DayOfYear(month: int, day: int): int {
    var mp := if month > 2 then month - 3 else month + 9;
    (153 * mp + 2) / 5 + day - 1
  }

  function DaysFromCivil(c: Civil): int {
    var year := if c.month <= 2 then c.year - 1 else c.year;
    var era := EraOf(year, 400);
    var yoe := year - era * 400;
    var doe := YearStart(yoe) + DayOfYear(c.month, c.day);
    era * 146_097 + doe - 719_468
  }

  function YearOfEra(doe: int): int {
    (doe - doe / 1_460 + doe / 36_524 - doe / 146_096) / 365
  }

  /** The date `doy` days after 1 March of `year`. */
  function DateInYear(year: int, doy: int): Civil {
    var mp := (5 * doy + 2) / 153;
    var day := doy - (153 * mp + 2) / 5 + 1;
    var month := if mp < 10 then mp + 3 else mp - 9;
    Civil(if month <= 2 then year + 1 else year, month, day)
  }

  function CivilFromDays(days: int): Civil {
    var z := days + 719_468;
    var era := EraOf(z, 146_097);
    var doe := z - era * 146_097;
    var yoe := YearOfEra(doe);
    DateInYear(yoe + era * 400, doe - YearStart(yoe))
  }

  // ---------- closed forms against the wall calendar ----------

  lemma EraBounds(x: int, span: int)
    requires span == 400 || span == 146_097
    ensures 0 <= x - EraOf(x, span) * span < span
  {
  }

  /** Inside an era, a day number splits into one year and one day of that year. */
  lemma YearOfEraIsYear(yoe: int, doy: int)
    requires 0 <= yoe < 400
    requires 0 <= doy <= 365
    requires doy == 365 ==> IsLeap(yoe + 1)
    ensures 0 <= YearStart(yoe) + doy < 146_097
    ensures YearOfEra(YearStart(yoe) + doy) == yoe
  {
    var c, q, r := yoe / 100, yoe % 100 / 4, yoe % 4;
    CenturyParts(yoe, c, q, r);
    LastDayIsLate(yoe, c, q, r);
    hide IsLeap, YearStart, YearOfEra;
    YearOfParts(c, q, r, doy);
  }

  lemma CenturyParts(yoe: int, c: int, q: int, r: int)
    requires 0 <= yoe < 400 && c == yoe / 100 && q == yoe % 100 / 4 && r == yoe % 4
    ensures 0 <= c < 4 && 0 <= q < 25 && 0 <= r < 4
    ensures yoe == 100 * c + 4 * q + r
    ensures YearStart(yoe) == 365 * yoe + 24 * c + q
  {
    var y := yoe - 100 * c;
    assert y == 4 * (y / 4) + y % 4 && yoe / 4 == 25 * c + y / 4;
  }

  lemma LastDayIsLate(yoe: int, c: int, q: int, r: int)
    requires yoe == 100 * c + 4 * q + r && 0 <= c < 4 && 0 <= q < 25 && 0 <= r < 4
    ensures IsLeap(yoe + 1) ==> r == 3 && (q < 24 || c == 3)
  {
  }

  lemma YearOfParts(c: int, q: int, r: int, doy: int)
    requires 0 <= c < 4 && 0 <= q < 25 && 0 <= r < 4 && 0 <= doy <= 365
    requires doy == 365 ==> r == 3 && (q < 24 || c == 3)
    ensures var yoe := 100 * c + 4 * q + r; var doe := 365 * yoe + 24 * c + q + doy;
      0 <= doe < 146_097 && YearOfEra(doe) == yoe
  {
    var yoe := 100 * c + 4 * q + r;
    var doe := 365 * yoe + 24 * c + q + doy;
    QuotientsOfParts(c, q, r, doy);
    if doe != 146_096 {
      var late := if 24 * c + q + 365 * r + doy >= 1_460 then 1 else 0;
      RestOfParts(c, q, r, doy, late);
    }
  }

  /** Four years overrun 1460 days only near their end, which costs one extra unit. */
  lemma QuotientsOfParts(c: int, q: int, r: int, doy: int)
    requires 0 <= c < 4 && 0 <= q < 25 && 0 <= r < 4 && 0 <= doy <= 365
    requires doy == 365 ==> r == 3 && (q < 24 || c == 3)
    ensures var doe := 365 * (100 * c + 4 * q + r) + 24 * c + q + doy;
      && 0 <= doe < 146_097
      && doe / 1_460 == 25 * c + q + (if 24 * c + q + 365 * r + doy >= 1_460 then 1 else 0)
      && (doe != 146_096 ==> doe / 36_524 == c && doe / 146_096 == 0)
  {
    var doe := 365 * (100 * c + 4 * q + r) + 24 * c + q + doy;
    DivideBy(doe, 1_460, 25 * c + q + if 24 * c + q + 365 * r + doy >= 1_460 then 1 else 0);
    if doe != 146_096 {
      DivideBy(doe, 36_524, c);
      DivideBy(doe, 146_096, 0);
    }
  }

  lemma RestOfParts(c: int, q: int, r: int, doy: int, late: int)
    requires 0 <= c < 4 && 0 <= q < 25 && 0 <= r < 4 && 0 <= doy <= 365
    requires doy == 365 ==> r == 3 && (q < 24 || c == 3)
    requires late == if 24 * c + q + 365 * r + doy >= 1_460 then 1 else 0
    requires 365 * (100 * c + 4 * q + r) + 24 * c + q + doy != 146_096
    ensures (365 * (100 * c + 4 * q + r) + 24 * c + q + doy - (25 * c + q + late) + c) / 365 == 100 * c + 4 * q + r
  {
    DivideBy(365 * (100 * c + 4 * q + r) + 24 * c + q + doy - (25 * c + q + late) + c, 365, 100 * c + 4 * q + r);
  }

  lemma EveryDayOfEraHasYear(doe: int) returns (yoe: int, doy: int)
    requires 0 <= doe < 146_097
    ensures 0 <= yoe < 400 && 0 <= doy <= 365 && (doy == 365 ==> IsLeap(yoe + 1))
    ensures doe == YearStart(yoe) + doy
  {
    var c := if doe == 146_096 then 3 else doe / 36_524;
    var inCentury := doe - 36_524 * c;
    var q := if inCentury >= 36_524 then 24 else inCentury / 1_461;
    var inQuad := inCentury - 1_461 * q;
    var r := if inQuad == 1_460 then 3 else inQuad / 365;
    yoe, doy := 100 * c + 4 * q + r, inQuad - 365 * r;
    assert yoe / 4 == 25 * c + q && yoe / 100 == c;
  }

  lemma EraIs(x: int, span: int, era: int, rest: int)
    requires span == 400 || span == 146_097
    requires x == era * span + rest && 0 <= rest < span
    ensures EraOf(x, span) == era
  {
    EraBounds(x, span);
  }

  lemma LeapPeriod(yoe: int, era: int)
    ensures IsLeap(yoe + era * 400) == IsLeap(yoe)
  {
    ModShift(yoe, 100 * era, 4);
    ModShift(yoe, 4 * era, 100);
    ModShift(yoe, era, 400);
  }

  lemma ModShift(x: int, k: int, m: int)
    requires m in {4, 100, 400}
    ensures (x + k * m) % m == x % m
  {
    DivideBy(x + k * m, m, x / m + k);
  }

  /** A date of a March-based year and its day of that year determine each other. */
  lemma DateOfDayOfYear(year: int, month: int, day: int)
    requires ValidCivilDate(if month <= 2 then year + 1 else year, month, day)
    ensures 0 <= DayOfYear(month, day) <= 365
    ensures DayOfYear(month, day) == 365 ==> IsLeap(year + 1)
    ensures DateInYear(year, DayOfYear(month, day)) == Civil(if month <= 2 then year + 1 else year, month, day)
  {
  }

  lemma DayOfYearOfDate(year: int, doy: int)
    requires 0 <= doy <= 365 && (doy == 365 ==> IsLeap(year + 1))
    ensures var c := DateInYear(year, doy);
      Valid(c) && DayOfYear(c.month, c.day) == doy && c.year == (if c.month <= 2 then year + 1 else year)
  {
    var mp := (5 * doy + 2) / 153;
    assert 0 <= mp < 12;
  }

  /** Era, year of era and day of year are read back from a day number. */
  lemma SplitDay(era: int, yoe: int, doy: int)
    requires 0 <= yoe < 400 && 0 <= doy <= 365 && (doy == 365 ==> IsLeap(yoe + 1))
    ensures CivilFromDays(era * 146_097 + YearStart(yoe) + doy - 719_468) == DateInYear(yoe + era * 400, doy)
  {
    hide IsLeap, YearStart, EraOf, YearOfEra, DateInYear;
    YearOfEraIsYear(yoe, doy);
    EraIs(era * 146_097 + YearStart(yoe) + doy, 146_097, era, YearStart(yoe) + doy);
  }

  function MarchYear(c: Civil): int {
    if c.month <= 2 then c.year - 1 else c.year
  }

  lemma JoinDay(c: Civil, era: int, yoe: int)
    requires MarchYear(c) == yoe + era * 400 && 0 <= yoe < 400
    ensures DaysFromCivil(c) == era * 146_097 + YearStart(yoe) + DayOfYear(c.month, c.day) - 719_468
  {
    EraIs(MarchYear(c), 400, era, yoe);
  }

  /** Converting a valid date to a day number and back returns the date. */
  lemma CivilOfDays(c: Civil)
    requires Valid(c)
    ensures CivilFromDays(DaysFromCivil(c)) == c
  {
    hide IsLeap, ValidCivilDate, YearStart, DayOfYear, EraOf, DateInYear, CivilFromDays;
    var year := MarchYear(c);
    var era := EraOf(year, 400);
    var yoe := year - era * 400;
    EraBounds(year, 400);
    DateOfDayOfYear(year, c.month, c.day);
    LeapPeriod(yoe + 1, era);
    SplitDay(era, yoe, DayOfYear(c.month, c.day));
  }

  lemma DateParts(days: int) returns (c: Civil, era: int, yoe: int)
    ensures c == CivilFromDays(days) && Valid(c)
    ensures MarchYear(c) == yoe + era * 400 && 0 <= yoe < 400
    ensures days == era * 146_097 + YearStart(yoe) + DayOfYear(c.month, c.day) - 719_468
  {
    hide IsLeap, ValidCivilDate, YearStart, DayOfYear, EraOf, DateInYear, CivilFromDays;
    var z := days + 719_468;
    era := EraOf(z, 146_097);
    EraBounds(z, 146_097);
    var doy: int;
    yoe, doy := EveryDayOfEraHasYear(z - era * 146_097);
    SplitDay(era, yoe, doy);
    LeapPeriod(yoe + 1, era);
    DayOfYearOfDate(yoe + era * 400, doy);
    c := DateInYear(yoe + era * 400, doy);
  }

  /** Every day number names a valid date, and converting that date returns the number. */
  lemma DaysOfCivil(days: int)
    ensures Valid(CivilFromDays(days))
    ensures DaysFromCivil(CivilFromDays(days)) == days
  {
    hide *;
    var c, era, yoe := DateParts(days);
    JoinDay(c, era, yoe);
  }

  /** The next day stays in its March-based year or starts the following one. */
  lemma NextDayOfYear(c: Civil)
    requires Valid(c)
    ensures var n := NextDay(c);
      && Valid(n)
      && (if MarchYear(n) == MarchYear(c) then DayOfYear(n.month, n.day) == DayOfYear(c.month, c.day) + 1
          else
            && MarchYear(n) == MarchYear(c) + 1
            && DayOfYear(n.month, n.day) == 0
            && DayOfYear(c.month, c.day) == if IsLeap(MarchYear(c) + 1) then 365 else 364)
  {
  }

  lemma YearLength(yoe: int)
    requires 0 <= yoe < 400
    ensures var length := if IsLeap(yoe + 1) then 366 else 365;
      if yoe < 399 then YearStart(yoe + 1) == YearStart(yoe) + length
      else YearStart(yoe) + length == 146_097
  {
    NextQuotient(yoe, 4);
    NextQuotient(yoe, 100);
  }

  lemma NextQuotient(x: nat, d: nat)
    requires d >= 2
    ensures (x + 1) / d == x / d + if (x + 1) % d == 0 then 1 else 0
  {
    var q, r := x / d, x % d;
    if r + 1 < d { DivideBy(x + 1, d, q); } else { DivideBy(x + 1, d, q + 1); }
  }

  /** The closed form counts wall-calendar days: one more for every next day. */
  lemma DaysCountTheCalendar(c: Civil)
    requires Valid(c)
    ensures Valid(NextDay(c))
    ensures DaysFromCivil(NextDay(c)) == DaysFromCivil(c) + 1
  {
    NextDayOfYear(c);
    NextDayNumber(c, NextDay(c));
  }

  lemma NextDayNumber(c: Civil, n: Civil)
    requires if MarchYear(n) == MarchYear(c) then DayOfYear(n.month, n.day) == DayOfYear(c.month, c.day) + 1
             else
               && MarchYear(n) == MarchYear(c) + 1
               && DayOfYear(n.month, n.day) == 0
               && DayOfYear(c.month, c.day) == if IsLeap(MarchYear(c) + 1) then 365 else 364
    ensures DaysFromCivil(n) == DaysFromCivil(c) + 1
  {
    var era := EraOf(MarchYear(c), 400);
    EraBounds(MarchYear(c), 400);
    var yoe := MarchYear(c) - era * 400;
    JoinDay(c, era, yoe);
    LeapPeriod(yoe + 1, era);
    YearLength(yoe);
    if MarchYear(n) == MarchYear(c) {
      JoinDay(n, era, yoe);
    } else if yoe < 399 {
      JoinDay(n, era, yoe + 1);
    } else {
      JoinDay(n, era + 1, 0);
    }
  }

  lemma CivilStepsTheCalendar(days: int, c: Civil)
    requires CivilFromDays(days) == c
    ensures CivilFromDays(days + 1) == NextDay(c)
  {
    hide CivilFromDays, DaysFromCivil, NextDay;
    DaysOfCivil(days);
    DaysCountTheCalendar(c);
    CivilOfDays(NextDay(c));
  }

  lemma EpochIsDayZero()
    ensures CivilFromDays(0) == Civil(1970, 1, 1)
  {
    hide CivilFromDays;
    SplitDay(4, 369, 306);
  }

  /** Hence the closed form is the wall calendar itself. */
  lemma {:induction false} CivilIsTheCalendar(n: nat)
    ensures CivilFromDays(n) == WalkFromEpoch(n)
  {
    hide CivilFromDays, NextDay;
    if n == 0 {
      EpochIsDayZero();
    } else {
      CivilIsTheCalendar(n - 1);
      CivilStepsTheCalendar(n - 1, WalkFromEpoch(n - 1));
    }
  }
}
