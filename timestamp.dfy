/**
 * The fixed timestamp format carried by task results, `YYYY-MM-DD HH:MM:SS.ffffff`
 * (ISO 8601 with a space instead of the `T`), as read by the ledger's
 * `_get_datetime`: `datetime.strptime(text, "%Y-%m-%d %H:%M:%S.%f")`.
 */
module Timestamp {
  import opened Wrappers

  /** A calendar date and wall-clock time with microsecond precision. */
  datatype DateTime = DateTime(
    year: nat, month: nat, day: nat,
    hour: nat, minute: nat, second: nat, microsecond: nat)

  /** Gregorian leap year rule. */
  predicate IsLeapYear(year: nat) {
    year % 4 == 0 && (year % 100 != 0 || year % 400 == 0)
  }

  function DaysInMonth(year: nat, month: nat): (days: nat)
    requires 1 <= month <= 12
    ensures 28 <= days <= 31
    ensures days == 29 <==> month == 2 && IsLeapYear(year)
  {
    if month == 2 then (if IsLeapYear(year) then 29 else 28)
    else if month == 4 || month == 6 || month == 9 || month == 11 then 30
    else 31
  }

  /** The ranges `datetime` accepts: years 1..9999, real calendar days, no leap second. */
  predicate Valid(d: DateTime) {
    && 1 <= d.year <= 9999
    && 1 <= d.month <= 12
    && 1 <= d.day <= DaysInMonth(d.year, d.month)
    && d.hour < 24
    && d.minute < 60
    && d.second < 60
    && d.microsecond < 1000000
  }

  predicate IsDigit(c: char) {
    '0' <= c <= '9'
  }

  predicate AllDigits(s: string) {
    forall i :: 0 <= i < |s| ==> IsDigit(s[i])
  }

  function Pow10(n: nat): (p: nat)
    ensures p >= 1
  {
    if n == 0 then 1 else 10 * Pow10(n - 1)
  }

  function DigitChar(n: nat): (c: char)
    requires n < 10
    ensures IsDigit(c) && c as int - '0' as int == n
  {
    ('0' as int + n) as char
  }

  /** The number a string of decimal digits denotes, most significant digit first. */
  function DigitsValue(s: string): (n: nat)
    requires AllDigits(s)
    ensures n < Pow10(|s|)
  {
    if s == [] then 0
    else DigitsValue(s[..|s| - 1]) * 10 + (s[|s| - 1] as int - '0' as int)
  }

  /** `n` written with exactly `width` digits, zero padded (`%0<width>d` for `n < 10^width`). */
  function Pad(n: nat, width: nat): (s: string)
    ensures |s| == width && AllDigits(s)
  {
    if width == 0 then [] else Pad(n / 10, width - 1) + [DigitChar(n % 10)]
  }

  lemma {:induction false} DigitsOfPad(n: nat, width: nat)
    requires n < Pow10(width)
    ensures DigitsValue(Pad(n, width)) == n
  {
    if width > 0 {
      var p := Pad(n / 10, width - 1);
      var s := Pad(n, width);
      assert s[..|s| - 1] == p;
      DigitsOfPad(n / 10, width - 1);
    }
  }

  lemma {:induction false} PadOfDigits(s: string)
    requires AllDigits(s)
    ensures Pad(DigitsValue(s), |s|) == s
  {
    if s != [] {
      var p := s[..|s| - 1];
      var d := s[|s| - 1] as int - '0' as int;
      var v := DigitsValue(s);
      assert v == DigitsValue(p) * 10 + d;
      assert v / 10 == DigitsValue(p) && v % 10 == d;
      PadOfDigits(p);
      assert s == p + [s[|s| - 1]];
    }
  }

  /** The separators and digit groups of the fixed layout, without range checks. */
  predicate Shaped(s: string) {
    && |s| == 26
    && s[4] == '-' && s[7] == '-' && s[10] == ' '
    && s[13] == ':' && s[16] == ':' && s[19] == '.'
    && AllDigits(s[0..4]) && AllDigits(s[5..7]) && AllDigits(s[8..10])
    && AllDigits(s[11..13]) && AllDigits(s[14..16]) && AllDigits(s[17..19])
    && AllDigits(s[20..26])
  }

  /** The fields of a shaped string, read as numbers. */
  function Fields(s: string): DateTime
    requires Shaped(s)
  {
    DateTime(
      DigitsValue(s[0..4]), DigitsValue(s[5..7]), DigitsValue(s[8..10]),
      DigitsValue(s[11..13]), DigitsValue(s[14..16]), DigitsValue(s[17..19]),
      DigitsValue(s[20..26]))
  }

  /**
   * `_get_datetime`: `None` stands for the `ValueError` that `strptime` raises when
   * the text does not match the layout or a field is out of range.
   */
  function Parse(s: string): (r: Option<DateTime>)
    ensures r.Some? ==> Valid(r.value) && Shaped(s)
  {
    if Shaped(s) && Valid(Fields(s)) then Some(Fields(s)) else None
  }

  /** The text the orchestration engine writes for a timestamp. */
  function Format(d: DateTime): string {
    Pad(d.year, 4) + "-" + Pad(d.month, 2) + "-" + Pad(d.day, 2) + " "
    + Pad(d.hour, 2) + ":" + Pad(d.minute, 2) + ":" + Pad(d.second, 2) + "."
    + Pad(d.microsecond, 6)
  }

  lemma FormatSlices(d: DateTime)
    ensures |Format(d)| == 26
    ensures Format(d)[0..4] == Pad(d.year, 4)
    ensures Format(d)[5..7] == Pad(d.month, 2)
    ensures Format(d)[8..10] == Pad(d.day, 2)
    ensures Format(d)[11..13] == Pad(d.hour, 2)
    ensures Format(d)[14..16] == Pad(d.minute, 2)
    ensures Format(d)[17..19] == Pad(d.second, 2)
    ensures Format(d)[20..26] == Pad(d.microsecond, 6)
    ensures Format(d)[4] == '-' && Format(d)[7] == '-' && Format(d)[10] == ' '
    ensures Format(d)[13] == ':' && Format(d)[16] == ':' && Format(d)[19] == '.'
  {
    var s := Format(d);
    var y, mo, da := Pad(d.year, 4), Pad(d.month, 2), Pad(d.day, 2);
    var h, mi, se := Pad(d.hour, 2), Pad(d.minute, 2), Pad(d.second, 2);
    var us := Pad(d.microsecond, 6);
    assert s == y + "-" + mo + "-" + da + " " + h + ":" + mi + ":" + se + "." + us;
    assert s[0..4] == y;
    assert s[5..7] == mo;
    assert s[8..10] == da;
    assert s[11..13] == h;
    assert s[14..16] == mi;
    assert s[17..19] == se;
    assert s[20..26] == us;
  }

  /** Formatting a valid timestamp and parsing it back gives the same timestamp. */
  lemma ParseFormat(d: DateTime)
    requires Valid(d)
    ensures Parse(Format(d)) == Some(d)
  {
    var s := Format(d);
    FormatSlices(d);
    assert Shaped(s);
    DigitsOfPad(d.year, 4);
    DigitsOfPad(d.month, 2);
    DigitsOfPad(d.day, 2);
    DigitsOfPad(d.hour, 2);
    DigitsOfPad(d.minute, 2);
    DigitsOfPad(d.second, 2);
    assert Pow10(6) == 1000000;
    DigitsOfPad(d.microsecond, 6);
    assert Fields(s) == d;
  }

  /** A shaped string is its digit groups joined by the fixed separators. */
  lemma ShapedJoin(s: string)
    requires Shaped(s)
    ensures s == s[0..4] + "-" + s[5..7] + "-" + s[8..10] + " " + s[11..13] + ":"
                + s[14..16] + ":" + s[17..19] + "." + s[20..26]
  {
    assert s[0..5] == s[0..4] + "-";
    assert s[0..7] == s[0..5] + s[5..7];
    assert s[0..8] == s[0..7] + "-";
    assert s[0..10] == s[0..8] + s[8..10];
    assert s[0..11] == s[0..10] + " ";
    assert s[0..13] == s[0..11] + s[11..13];
    assert s[0..14] == s[0..13] + ":";
    assert s[0..16] == s[0..14] + s[14..16];
    assert s[0..17] == s[0..16] + ":";
    assert s[0..19] == s[0..17] + s[17..19];
    assert s[0..20] == s[0..19] + ".";
    assert s[0..26] == s[0..20] + s[20..26];
    assert s == s[0..26];
  }

  /** Whatever parses is exactly the formatted text of its value: nothing else is accepted. */
  lemma FormatParse(s: string)
    requires Parse(s).Some?
    ensures Format(Parse(s).value) == s
  {
    assert Parse(s).value == Fields(s);
    PadOfDigits(s[0..4]);
    PadOfDigits(s[5..7]);
    PadOfDigits(s[8..10]);
    PadOfDigits(s[11..13]);
    PadOfDigits(s[14..16]);
    PadOfDigits(s[17..19]);
    PadOfDigits(s[20..26]);
    ShapedJoin(s);
  }

  /** The parser accepts exactly the formatted texts of valid timestamps. */
  lemma ParseIff(s: string, d: DateTime)
    ensures Parse(s) == Some(d) <==> Valid(d) && s == Format(d)
  {
    if Parse(s) == Some(d) {
      FormatParse(s);
    }
    if Valid(d) && s == Format(d) {
      ParseFormat(d);
    }
  }
}
