/** Canonical UTC timestamps `YYYY-MM-DDTHH:MM:SS.mmmZ` (`backend/src/delivery.rs`). */
module Timestamp {
  import opened Calendar
  import opened Common

  /** First millisecond of the year 10000. */
  const END_OF_9999 := 253_402_300_800_000

  // ---------- decimal digits ----------

  function Pow10(width: nat): nat {
    if width == 0 then 1 else 10 * Pow10(width - 1)
  }

  function Digits(n: nat, width: nat): (s: string)
    ensures |s| == width
    ensures IsNumeral(s)
  {
    if width == 0 then "" else Digits(n / 10, width - 1) + [('0' as int + n % 10) as char]
  }

  predicate IsNumeral(s: string) {
    forall i :: 0 <= i < |s| ==> '0' <= s[i] <= '9'
  }

  function Number(s: string): (n: nat)
    requires IsNumeral(s)
    ensures n < Pow10(|s|)
  {
    if s == "" then 0 else 10 * Number(s[..|s| - 1]) + (s[|s| - 1] as int - '0' as int)
  }

  lemma {:induction false} NumberOfDigits(n: nat, width: nat)
    requires n < Pow10(width)
    ensures Number(Digits(n, width)) == n
  {
    if width > 0 {
      NumberOfDigits(n / 10, width - 1);
      var s := Digits(n, width);
      assert s[..|s| - 1] == Digits(n / 10, width - 1);
    }
  }

  lemma {:induction false} DigitsOfNumber(s: string)
    requires IsNumeral(s)
    ensures Digits(Number(s), |s|) == s
  {
    if s != "" {
      DigitsOfNumber(s[..|s| - 1]);
      assert s == s[..|s| - 1] + [s[|s| - 1]];
    }
  }

  // ---------- printing ----------

  datatype Clock = Clock(hour: nat, minute: nat, second: nat, millis: nat)

  predicate ValidClock(t: Clock) {
    t.hour <= 23 && t.minute <= 59 && t.second <= 59 && t.millis <= 999
  }

  function Format(c: Civil, t: Clock): (s: string)
    requires 0 <= c.year && 0 <= c.month && 0 <= c.day
    ensures |s| == 24
  {
    Digits(c.year, 4) + "-" + Digits(c.month, 2) + "-" + Digits(c.day, 2) + "T"
    + Digits(t.hour, 2) + ":" + Digits(t.minute, 2) + ":" + Digits(t.second, 2) + "." + Digits(t.millis, 3) + "Z"
  }

  function UnixMsToCanonicalUtc(ms: nat): Option<string> {
    var secs := ms / 1_000;
    var rem := secs % 86_400;
    var c := CivilFromDays(secs / 86_400);
    DaysOfCivil(secs / 86_400);
    if !(0 <= c.year <= 9999) then None
    else Some(Format(c, Clock(rem / 3_600, rem % 3_600 / 60, rem % 60, ms % 1_000)))
  }

  // ---------- parsing ----------

  /** The fixed-width decimal field at `start`, if every character is a digit. */
  function Field(value: string, start: nat, len: nat): Option<nat>
    requires start + len <= |value|
  {
    if IsNumeral(value[start..start + len]) then Some(Number(value[start..start + len])) else None
  }

  predicate HasPunctuation(value: string) {
    && |value| == 24 && value[10] == 'T' && value[19] == '.' && value[23] == 'Z'
    && value[4] == '-' && value[7] == '-' && value[13] == ':' && value[16] == ':'
  }

  function Milliseconds(days: int, t: Clock): int {
    days * 86_400_000 + t.hour * 3_600_000 + t.minute * 60_000 + t.second * 1_000 + t.millis
  }

  /** Everything the parser checks before its final comparison with the printed form. */
  function ParseFields(value: string): (r: Option<nat>) {
    if !HasPunctuation(value) then None
    else
      match (Field(value, 0, 4), Field(value, 5, 2), Field(value, 8, 2), Field(value, 11, 2),
             Field(value, 14, 2), Field(value, 17, 2), Field(value, 20, 3))
      case (Some(year), Some(month), Some(day), Some(hour), Some(minute), Some(second), Some(millis)) =>
        if !ValidCivilDate(year, month, day) || hour > 23 || minute > 59 || second > 59 then None
        else
          var days := DaysFromCivil(Civil(year, month, day));
          if days < 0 then None else Some(Milliseconds(days, Clock(hour, minute, second, millis)))
      case _ => None
  }

  function ParseCanonicalUtcMs(value: string): Option<nat> {
    match ParseFields(value)
    case None => None
    case Some(ms) => if UnixMsToCanonicalUtc(ms) == Some(value) then Some(ms) else None
  }

  // ---------- print and parse undo each other ----------

  lemma ValidDateFields(c: Civil)
    requires Valid(c)
    ensures 1 <= c.month <= 12 && 1 <= c.day <= 31
  {
  }

  /** Exactly the years 1970 to 9999 have day numbers from the epoch to the limit. */
  lemma YearRange(c: Civil)
    requires Valid(c)
    ensures 0 <= DaysFromCivil(c) <==> 1970 <= c.year
    ensures DaysFromCivil(c) * 86_400_000 < END_OF_9999 <==> c.year <= 9999
  {
    hide IsLeap, ValidCivilDate, EraOf, YearStart, DayOfYear, DaysFromCivil, DateInYear;
    var era := EraOf(MarchYear(c), 400);
    EraBounds(MarchYear(c), 400);
    var yoe := MarchYear(c) - era * 400;
    JoinDay(c, era, yoe);
    DateOfDayOfYear(MarchYear(c), c.month, c.day);
    ValidDateFields(c);
    DayOfJanuary(c.month, c.day);
    YearRangeOfParts(era, yoe, DayOfYear(c.month, c.day));
  }

  lemma YearRangeOfParts(era: int, yoe: int, doy: int)
    requires 0 <= yoe < 400 && 0 <= doy <= 365
    ensures var days := era * 146_097 + YearStart(yoe) + doy - 719_468;
      var year := era * 400 + yoe + if doy >= 306 then 1 else 0;
      && (0 <= days <==> 1970 <= year)
      && (days * 86_400_000 < END_OF_9999 <==> year <= 9999)
  {
    hide YearStart;
    PlaceInEra(yoe, doy);
    EraOnTimeline(era, YearStart(yoe) + doy);
  }

  lemma PlaceInEra(yoe: int, doy: int)
    requires 0 <= yoe < 400 && 0 <= doy <= 365
    ensures 0 <= YearStart(yoe) + doy <= 146_096
    ensures YearStart(yoe) + doy >= 135_080 <==> yoe > 369 || (yoe == 369 && doy >= 306)
    ensures YearStart(yoe) + doy < 146_037 <==> yoe < 399 || doy < 306
  {
    assert YearStart(0) == 0 && YearStart(369) == 134_774 && YearStart(399) == 145_731;
    YearStartGrows(0, yoe);
    YearStartGrows(yoe, 399);
    if yoe < 369 { YearStartGrows(yoe, 369); } else { YearStartGrows(369, yoe); }
    hide YearStart;
  }

  lemma EraOnTimeline(era: int, inEra: int)
    requires 0 <= inEra <= 146_096
    ensures var days := era * 146_097 + inEra - 719_468;
      && (0 <= days <==> era > 4 || (era == 4 && inEra >= 135_080))
      && (days * 86_400_000 < END_OF_9999 <==> era < 24 || (era == 24 && inEra < 146_037))
  {
  }

  /** A later year of an era starts at least 365 days after each earlier one. */
  lemma YearStartGrows(a: int, b: int)
    requires 0 <= a <= b < 400
    ensures YearStart(a) + 365 * (b - a) <= YearStart(b)
  {
  }

  lemma DayOfJanuary(month: int, day: int)
    requires 1 <= month <= 12 && 1 <= day <= 31
    ensures month <= 2 <==> DayOfYear(month, day) >= 306
  {
  }

  lemma ClockOfMs(days: nat, t: Clock)
    requires ValidClock(t)
    ensures var ms := Milliseconds(days, t);
      && 0 <= ms && ms / 1_000 / 86_400 == days
      && ms / 1_000 % 86_400 / 3_600 == t.hour && ms / 1_000 % 86_400 % 3_600 / 60 == t.minute
      && ms / 1_000 % 86_400 % 60 == t.second && ms % 1_000 == t.millis
  {
    var secs := days * 86_400 + t.hour * 3_600 + t.minute * 60 + t.second;
    assert Milliseconds(days, t) == secs * 1_000 + t.millis;
  }

  lemma MsOfClock(ms: nat) returns (days: nat, t: Clock)
    ensures ValidClock(t) && ms == Milliseconds(days, t)
  {
    var secs := ms / 1_000;
    var rem := secs % 86_400;
    days, t := secs / 86_400, Clock(rem / 3_600, rem % 3_600 / 60, rem % 60, ms % 1_000);
    assert rem == 3_600 * t.hour + rem % 3_600;
    assert rem % 3_600 == 60 * t.minute + rem % 3_600 % 60;
    assert rem % 3_600 % 60 == t.second;
  }

  /** Printing a date and a time of day: what the printer returns for that millisecond. */
  lemma PrintsFormat(c: Civil, t: Clock)
    requires Valid(c) && ValidClock(t) && 1970 <= c.year
    ensures 0 <= DaysFromCivil(c)
    ensures UnixMsToCanonicalUtc(Milliseconds(DaysFromCivil(c), t))
         == if c.year <= 9999 then Some(Format(c, t)) else None
  {
    hide CivilFromDays, DaysFromCivil, Format, ValidCivilDate;
    YearRange(c);
    CivilOfDays(c);
    ClockOfMs(DaysFromCivil(c), t);
  }

  /** The seven fields of a formatted timestamp read back as the numbers that made it. */
  lemma FieldsOfFormat(c: Civil, t: Clock)
    requires Valid(c) && ValidClock(t) && 0 <= c.year <= 9999
    ensures 1 <= c.month <= 12 && 1 <= c.day <= 31
    ensures var s := Format(c, t);
      && HasPunctuation(s)
      && Field(s, 0, 4) == Some(c.year) && Field(s, 5, 2) == Some(c.month) && Field(s, 8, 2) == Some(c.day)
      && Field(s, 11, 2) == Some(t.hour) && Field(s, 14, 2) == Some(t.minute) && Field(s, 17, 2) == Some(t.second)
      && Field(s, 20, 3) == Some(t.millis)
  {
    ValidDateFields(c);
    hide ValidCivilDate, Digits, Number, IsNumeral;
    var s := Format(c, t);
    Pow10Values();
    NumberOfDigits(c.year, 4);
    NumberOfDigits(c.month, 2);
    NumberOfDigits(c.day, 2);
    NumberOfDigits(t.hour, 2);
    NumberOfDigits(t.minute, 2);
    NumberOfDigits(t.second, 2);
    NumberOfDigits(t.millis, 3);
    JoinedSlices(Digits(c.year, 4), Digits(c.month, 2), Digits(c.day, 2), Digits(t.hour, 2),
                 Digits(t.minute, 2), Digits(t.second, 2), Digits(t.millis, 3), s);
  }

  lemma JoinedSlices(y: string, mo: string, d: string, h: string, mi: string, sec: string, ms: string, s: string)
    requires |y| == 4 && |mo| == 2 && |d| == 2 && |h| == 2 && |mi| == 2 && |sec| == 2 && |ms| == 3
    requires s == y + "-" + mo + "-" + d + "T" + h + ":" + mi + ":" + sec + "." + ms + "Z"
    ensures HasPunctuation(s)
    ensures s[0..4] == y && s[5..7] == mo && s[8..10] == d
    ensures s[11..13] == h && s[14..16] == mi && s[17..19] == sec && s[20..23] == ms
  {
    assert s[5] == mo[0] && s[6] == mo[1] && s[8] == d[0] && s[9] == d[1];
    assert s[11] == h[0] && s[12] == h[1] && s[14] == mi[0] && s[15] == mi[1];
    assert s[17] == sec[0] && s[18] == sec[1] && s[20] == ms[0] && s[21] == ms[1] && s[22] == ms[2];
  }

  lemma Pow10Values()
    ensures Pow10(2) == 100 && Pow10(3) == 1_000 && Pow10(4) == 10_000
  {
  }

  /** A string with punctuation and seven numerals is the format of those numbers. */
  lemma FormatOfFields(s: string, c: Civil, t: Clock)
    requires HasPunctuation(s) && 0 <= c.year && 0 <= c.month && 0 <= c.day
    requires Field(s, 0, 4) == Some(c.year) && Field(s, 5, 2) == Some(c.month) && Field(s, 8, 2) == Some(c.day)
    requires Field(s, 11, 2) == Some(t.hour) && Field(s, 14, 2) == Some(t.minute) && Field(s, 17, 2) == Some(t.second)
    requires Field(s, 20, 3) == Some(t.millis)
    ensures Format(c, t) == s
    ensures c.year <= 9999 && t.millis <= 999
  {
    hide Digits, Number, IsNumeral;
    Pow10Values();
    DigitsOfNumber(s[0..4]);
    DigitsOfNumber(s[5..7]);
    DigitsOfNumber(s[8..10]);
    DigitsOfNumber(s[11..13]);
    DigitsOfNumber(s[14..16]);
    DigitsOfNumber(s[17..19]);
    DigitsOfNumber(s[20..23]);
    SplitAt(s);
  }

  lemma SplitAt(s: string)
    requires HasPunctuation(s)
    ensures s
            == s[0..4] + "-" + s[5..7] + "-" + s[8..10] + "T"
                + s[11..13] + ":" + s[14..16] + ":" + s[17..19] + "." + s[20..23] + "Z"
  {
  }

  /**
   * What the parser accepts, both ways: the formats of the valid dates from 1970
   * through 9999 with a valid time of day, each read as its own millisecond.
   */
  lemma ParsesFormat(c: Civil, t: Clock)
    requires Valid(c) && ValidClock(t) && 1970 <= c.year <= 9999
    ensures 0 <= c.month && 0 <= c.day
    ensures 0 <= DaysFromCivil(c)
    ensures ParseFields(Format(c, t)) == Some(Milliseconds(DaysFromCivil(c), t))
  {
    FieldsOfFormat(c, t);
    YearRange(c);
    hide DaysFromCivil, Format, ValidCivilDate, Field, HasPunctuation;
    ClockOfMs(DaysFromCivil(c), t);
  }

  lemma ParsedIsFormat(value: string) returns (c: Civil, t: Clock)
    requires ParseFields(value).Some?
    ensures Valid(c) && ValidClock(t) && 1970 <= c.year <= 9999 && 0 <= c.month && 0 <= c.day
    ensures value == Format(c, t)
    ensures ParseFields(value) == Some(Milliseconds(DaysFromCivil(c), t))
  {
    hide DaysFromCivil, ValidCivilDate, Format;
    c := Civil(Field(value, 0, 4).value, Field(value, 5, 2).value, Field(value, 8, 2).value);
    t := Clock(Field(value, 11, 2).value, Field(value, 14, 2).value, Field(value, 17, 2).value,
        Field(value, 20, 3).value);
    FormatOfFields(value, c, t);
    YearRange(c);
  }

  /** The closing comparison with the printed form never rejects. */
  lemma FinalCheckNeverRejects(value: string)
    ensures ParseCanonicalUtcMs(value) == ParseFields(value)
  {
    if ParseFields(value).Some? {
      var c, t := ParsedIsFormat(value);
      PrintsFormat(c, t);
    }
  }

  /** Printing then parsing returns the millisecond, for exactly the years the format can hold. */
  lemma PrintThenParse(ms: nat)
    ensures UnixMsToCanonicalUtc(ms).Some? <==> ms < END_OF_9999
    ensures ms < END_OF_9999 ==> ParseCanonicalUtcMs(UnixMsToCanonicalUtc(ms).value) == Some(ms)
  {
    hide CivilFromDays, DaysFromCivil, Format, ValidCivilDate, ParseFields, UnixMsToCanonicalUtc;
    var days, t := MsOfClock(ms);
    DaysOfCivil(days);
    var c := CivilFromDays(days);
    YearRange(c);
    PrintsFormat(c, t);
    if c.year <= 9999 {
      ParsesFormat(c, t);
    }
  }

  /** The field checks alone accept only texts that print back to themselves. */
  lemma ParseThenPrint(value: string)
    ensures ParseFields(value).Some? ==> UnixMsToCanonicalUtc(ParseFields(value).value) == Some(value)
  {
    hide UnixMsToCanonicalUtc, ParseFields, Format;
    if ParseFields(value).Some? {
      var c, t := ParsedIsFormat(value);
      PrintsFormat(c, t);
    }
  }
}
