/**
 * Python's `datetime.strptime(s, "%m-%d-%Y")` followed by `strftime("%m%d%Y")`,
 * which both scripts use to turn a published date into the date part of a file name.
 *
 * `strptime` builds a regular expression from the format: `%m` is
 * `1[0-2]|0[1-9]|[1-9]`, `%d` is `3[01]|[12]\d|0[1-9]|[1-9]| [1-9]`, `%Y` is
 * `\d\d\d\d`, and `-` stands for itself. The expression must match a prefix of
 * the input, the whole input must be consumed, and the fields must form a
 * date of the Gregorian calendar with a year from 1 to 9999.
 */
module Dates {
  import opened Wrappers
  import opened Text

  /** Why `strptime` raises `ValueError`. */
  datatype StrptimeError =
    | NoMatch                         // "time data ... does not match format ..."
    | UnconvertedData(rest: string)   // "unconverted data remains: ..."
    | YearOutOfRange                  // "year 0 is out of range"
    | DayOutOfRange                   // "day is out of range for month"

  /** A calendar date as `datetime` holds it. */
  datatype Date = Date(month: nat, day: nat, year: nat)

  /** Gregorian leap years: divisible by 4, except centuries not divisible by 400. */
  predicate IsLeapYear(y: nat)
  {
    y % 4 == 0 && (y % 100 != 0 || y % 400 == 0)
  }

  function DaysInMonth(m: nat, y: nat): (n: nat)
    requires 1 <= m <= 12
    ensures 28 <= n <= 31
    ensures m == 2 ==> (n == 29 <==> IsLeapYear(y))
  {
    if m == 2 then (if IsLeapYear(y) then 29 else 28)
    else if m == 4 || m == 6 || m == 9 || m == 11 then 30
    else 31
  }

  /** The dates `datetime` can represent. */
  predicate ValidDate(d: Date)
  {
    1 <= d.month <= 12 && 1 <= d.year <= 9999 && 1 <= d.day <= DaysInMonth(d.month, d.year)
  }

  predicate IsDigit(c: char)
  {
    '0' <= c <= '9'
  }

  predicate AllDigits(s: string)
  {
    forall i :: 0 <= i < |s| ==> IsDigit(s[i])
  }

  predicate NoDash(s: string)
  {
    forall i :: 0 <= i < |s| ==> s[i] != '-'
  }

  /** The position of the first `-`, if any. */
  function FirstDash(s: string): (r: Option<nat>)
    ensures r.Some? ==> r.value < |s| && s[r.value] == '-' && NoDash(s[..r.value])
    ensures r.None? ==> NoDash(s)
  {
    if s == [] then None
    else if s[0] == '-' then Some(0)
    else match FirstDash(s[1..])
      case None => None
      case Some(k) => assert s[..k + 1] == [s[0]] + s[1..][..k]; Some(k + 1)
  }

  /** The text matched by `%m`, read as a month: `1[0-2]|0[1-9]|[1-9]`. */
  function MonthField(t: string): (r: Option<nat>)
    ensures r.Some? ==> 1 <= r.value <= 12
  {
    if |t| == 2 && t[0] == '1' && '0' <= t[1] <= '2' then Some(10 + DigitValue(t[1]))
    else if |t| == 2 && t[0] == '0' && '1' <= t[1] <= '9' then Some(DigitValue(t[1]))
    else if |t| == 1 && '1' <= t[0] <= '9' then Some(DigitValue(t[0]))
    else None
  }

  /** The text matched by `%d`, read as a day: `3[01]|[12]\d|0[1-9]|[1-9]| [1-9]`. */
  function DayField(t: string): (r: Option<nat>)
    ensures r.Some? ==> 1 <= r.value <= 31
  {
    if |t| == 2 && t[0] == '3' && '0' <= t[1] <= '1' then Some(30 + DigitValue(t[1]))
    else if |t| == 2 && '1' <= t[0] <= '2' && IsDigit(t[1]) then Some(10 * DigitValue(t[0]) + DigitValue(t[1]))
    else if |t| == 2 && (t[0] == '0' || t[0] == ' ') && '1' <= t[1] <= '9' then Some(DigitValue(t[1]))
    else if |t| == 1 && '1' <= t[0] <= '9' then Some(DigitValue(t[0]))
    else None
  }

  /**
   * `datetime.strptime(s, "%m-%d-%Y")`. No field can contain `-`, so the month is
   * the text before the first dash and the day the text before the second one.
   */
  function Strptime(s: string): Result<Date, StrptimeError>
  {
    match FirstDash(s)
    case None => Err(NoMatch)
    case Some(i) =>
      var rest := s[i + 1..];
      match (MonthField(s[..i]), FirstDash(rest))
      case (Some(m), Some(j)) =>
        (match DayField(rest[..j])
         case None => Err(NoMatch)
         case Some(d) =>
           var tail := rest[j + 1..];
           if |tail| < 4 || !AllDigits(tail[..4]) then Err(NoMatch)
           else if |tail| > 4 then Err(UnconvertedData(tail[4..]))
           else
             var y := ReadNatural(tail);
             if y == 0 then Err(YearOutOfRange)
             else if d > DaysInMonth(m, y) then Err(DayOutOfRange)
             else Ok(Date(m, d, y)))
      case _ => Err(NoMatch)
  }

  /** A number below 100 as two digits (`%m`, `%d` on output). */
  function Pad2(n: nat): (r: string)
    requires n < 100
    ensures |r| == 2 && AllDigits(r)
  {
    [DigitChar(n / 10), DigitChar(n % 10)]
  }

  /** A year as four digits (`%Y` on output). */
  function Pad4(n: nat): (r: string)
    requires n < 10000
    ensures |r| == 4 && AllDigits(r)
  {
    Pad2(n / 100) + Pad2(n % 100)
  }

  /** `strftime("%m%d%Y")` of a date. */
  function Render(d: Date): (r: string)
    requires ValidDate(d)
    ensures |r| == 8 && AllDigits(r)
  {
    Pad2(d.month) + Pad2(d.day) + Pad4(d.year)
  }

  /** `datetime.strptime(s, "%m-%d-%Y").strftime("%m%d%Y")`. */
  function Reformat(s: string): (r: Result<string, StrptimeError>)
    ensures r.Ok? <==> Strptime(s).Ok?
    ensures r.Ok? ==> ValidDate(Strptime(s).value) && r.value == Render(Strptime(s).value)
    ensures r.Err? ==> r.error == Strptime(s).error
  {
    match Strptime(s)
    case Err(e) => Err(e)
    case Ok(d) => StrptimeValid(s); Ok(Render(d))
  }

  /** The ways `strptime` accepts a month to be written. */
  function MonthSpellings(m: nat): set<string>
    requires m < 100
  {
    {Pad2(m)} + (if 1 <= m <= 9 then {[DigitChar(m)]} else {})
  }

  /** The ways `strptime` accepts a day to be written: also one digit, or a space and one digit. */
  function DaySpellings(d: nat): set<string>
    requires d < 100
  {
    {Pad2(d)} + (if 1 <= d <= 9 then {[DigitChar(d)], [' ', DigitChar(d)]} else {})
  }

  /** The `MM-DD-YYYY` text of a date. */
  function Canonical(d: Date): string
    requires ValidDate(d)
  {
    Pad2(d.month) + "-" + Pad2(d.day) + "-" + Pad4(d.year)
  }

  /** Where the fields of an accepted text are: month before the first dash, day before the second, then the year. */
  lemma StrptimeFields(s: string) returns (i: nat, j: nat)
    requires Strptime(s).Ok?
    ensures i < |s| && s[i] == '-' && j < |s[i + 1..]| && s[i + 1..][j] == '-'
    ensures var d := Strptime(s).value; var tail := s[i + 1..][j + 1..];
      MonthField(s[..i]) == Some(d.month) && DayField(s[i + 1..][..j]) == Some(d.day) &&
      |tail| == 4 && AllDigits(tail) && ReadNatural(tail) == d.year &&
      1 <= d.year && d.day <= DaysInMonth(d.month, d.year)
  {
    i := FirstDash(s).value;
    j := FirstDash(s[i + 1..]).value;
  }

  /** What `strptime` returns is a date `datetime` can hold. */
  lemma StrptimeValid(s: string)
    requires Strptime(s).Ok?
    ensures ValidDate(Strptime(s).value)
  {
    var i, j := StrptimeFields(s);
    Pad4ReadBack(s[i + 1..][j + 1..]);
  }

  /** `Pad2` reads back as the number it was given. */
  lemma Pad2RoundTrip(n: nat)
    requires n < 100
    ensures ReadNatural(Pad2(n)) == n
  {
    var t := Pad2(n);
    assert t[..1][..0] == [];
    assert ReadNatural(t[..1]) == n / 10;
  }

  /** Splitting off the last decimal digit. */
  lemma Split10(q: nat, r: nat)
    requires r < 10
    ensures (10 * q + r) / 10 == q && (10 * q + r) % 10 == r
  {
  }

  /** Splitting off the last two decimal digits. */
  lemma Split100(q: nat, r: nat)
    requires r < 100
    ensures (100 * q + r) / 100 == q && (100 * q + r) % 100 == r
  {
  }

  /** Two digit values make the `Pad2` of the number they spell. */
  lemma Pad2Digits(a: nat, b: nat)
    requires a < 10 && b < 10
    ensures Pad2(10 * a + b) == [DigitChar(a), DigitChar(b)]
  {
    Split10(a, b);
  }

  /** The number four digits spell. */
  lemma ReadFour(t: string)
    requires |t| == 4 && AllDigits(t)
    ensures ReadNatural(t) == 100 * (10 * DigitValue(t[0]) + DigitValue(t[1])) + (10 * DigitValue(t[2]) + DigitValue(t[3]))
  {
    assert t[..3][..2][..1][..0] == [];
    assert ReadNatural(t[..3][..2][..1]) == DigitValue(t[0]);
    assert ReadNatural(t[..3][..2]) == 10 * DigitValue(t[0]) + DigitValue(t[1]);
  }

  /** Four digits are the `Pad4` of the number they spell, which is below 10000. */
  lemma Pad4ReadBack(t: string)
    requires |t| == 4 && AllDigits(t)
    ensures ReadNatural(t) < 10000 && Pad4(ReadNatural(t)) == t
  {
    var a, b, c, d := DigitValue(t[0]), DigitValue(t[1]), DigitValue(t[2]), DigitValue(t[3]);
    ReadFour(t);
    Split100(10 * a + b, 10 * c + d);
    Pad2Digits(a, b);
    Pad2Digits(c, d);
    assert t == [t[0], t[1]] + [t[2], t[3]];
  }

  /** `Pad4` reads back as the number it was given. */
  lemma Pad4RoundTrip(n: nat)
    requires n < 10000
    ensures ReadNatural(Pad4(n)) == n
  {
    var t := Pad4(n);
    Pad4ReadBack(t);
    var m := ReadNatural(t);
    Pad4Injective(m, n);
  }

  lemma Pad4Injective(m: nat, n: nat)
    requires m < 10000 && n < 10000 && Pad4(m) == Pad4(n)
    ensures m == n
  {
    assert Pad4(m)[0] == Pad4(n)[0] && Pad4(m)[1] == Pad4(n)[1];
    assert Pad4(m)[2] == Pad4(n)[2] && Pad4(m)[3] == Pad4(n)[3];
    assert m / 100 / 10 == n / 100 / 10 && m / 100 % 10 == n / 100 % 10;
    assert m % 100 / 10 == n % 100 / 10 && m % 100 % 10 == n % 100 % 10;
  }

  /** The first dash of `a + "-" + b` follows `a` when `a` has none. */
  lemma FirstDashAfter(a: string, b: string)
    requires NoDash(a)
    ensures FirstDash(a + "-" + b) == Some(|a|)
  {
    var s := a + "-" + b;
    assert s[|a|] == '-';
    assert forall j :: 0 <= j < |a| ==> s[j] == a[j];
  }

  /** Every accepted spelling of a month is read back as that month. */
  lemma MonthSpellingRead(m: nat, t: string)
    requires 1 <= m <= 12 && t in MonthSpellings(m)
    ensures NoDash(t) && MonthField(t) == Some(m)
  {
  }

  /** Every accepted spelling of a day is read back as that day. */
  lemma DaySpellingRead(d: nat, t: string)
    requires 1 <= d <= 31 && t in DaySpellings(d)
    ensures NoDash(t) && DayField(t) == Some(d)
  {
  }

  /** Whatever `%m` matches is one of the spellings of the month it is read as. */
  lemma MonthFieldSpelling(t: string)
    requires MonthField(t).Some?
    ensures t in MonthSpellings(MonthField(t).value)
  {
    var m := MonthField(t).value;
    if |t| == 2 {
      assert t == [t[0], t[1]];
      assert Pad2(m) == t;
    } else {
      assert t == [DigitChar(m)];
    }
  }

  /** Whatever `%d` matches is one of the spellings of the day it is read as. */
  lemma DayFieldSpelling(t: string)
    requires DayField(t).Some?
    ensures t in DaySpellings(DayField(t).value)
  {
    var d := DayField(t).value;
    if |t| == 2 {
      assert t == [t[0], t[1]];
      if t[0] == ' ' {
        assert t == [' ', DigitChar(d)];
      } else {
        assert Pad2(d) == t;
      }
    } else {
      assert t == [DigitChar(d)];
    }
  }

  /**
   * Completeness: every valid date, with its month written in any accepted
   * way and its day written in any accepted way, is parsed as that date.
   */
  lemma StrptimeAccepts(d: Date, ms: string, ds: string)
    requires ValidDate(d) && ms in MonthSpellings(d.month) && ds in DaySpellings(d.day)
    ensures Strptime(ms + "-" + ds + "-" + Pad4(d.year)) == Ok(d)
  {
    var s := ms + "-" + ds + "-" + Pad4(d.year);
    MonthSpellingRead(d.month, ms);
    DaySpellingRead(d.day, ds);
    assert s == ms + "-" + (ds + "-" + Pad4(d.year));
    FirstDashAfter(ms, ds + "-" + Pad4(d.year));
    FirstDashAfter(ds, Pad4(d.year));
    Pad4RoundTrip(d.year);
    StrptimeOf(ms, ds + "-" + Pad4(d.year), ds, Pad4(d.year), d.month, d.day, d.year);
  }

  /**
   * `strptime` on a month text, a dash, a day text, a dash and four digits:
   * the calendar checks decide.
   */
  lemma StrptimeOf(ms: string, rest: string, ds: string, tail: string, m: nat, d: nat, y: nat)
    requires rest == ds + "-" + tail
    requires FirstDash(ms + "-" + rest) == Some(|ms|) && FirstDash(rest) == Some(|ds|)
    requires MonthField(ms) == Some(m) && DayField(ds) == Some(d)
    requires |tail| == 4 && AllDigits(tail) && ReadNatural(tail) == y
    ensures 1 <= m <= 12
    ensures Strptime(ms + "-" + rest) ==
      if y == 0 then Err(YearOutOfRange) else if d > DaysInMonth(m, y) then Err(DayOutOfRange) else Ok(Date(m, d, y))
  {
    var s := ms + "-" + rest;
    assert s[..|ms|] == ms && s[|ms| + 1..] == rest;
    assert rest[..|ds|] == ds && rest[|ds| + 1..] == tail;
    assert tail[..4] == tail;
  }

  /**
   * Soundness: whatever `strptime` accepts is a valid date written as an
   * accepted month spelling, a dash, an accepted day spelling, a dash and
   * the four digits of the year, and nothing more.
   */
  lemma StrptimeSound(s: string) returns (ms: string, ds: string)
    requires Strptime(s).Ok?
    ensures ValidDate(Strptime(s).value)
    ensures ms in MonthSpellings(Strptime(s).value.month)
    ensures ds in DaySpellings(Strptime(s).value.day)
    ensures s == ms + "-" + ds + "-" + Pad4(Strptime(s).value.year)
  {
    StrptimeValid(s);
    var i, j := StrptimeFields(s);
    var rest := s[i + 1..];
    var tail := rest[j + 1..];
    ms, ds := s[..i], rest[..j];
    MonthFieldSpelling(ms);
    DayFieldSpelling(ds);
    Pad4ReadBack(tail);
    SplitAtDash(rest, j);
    SplitAtDash(s, i);
  }

  lemma SplitAtDash(s: string, i: nat)
    requires i < |s| && s[i] == '-'
    ensures s == s[..i] + "-" + s[i + 1..]
  {
  }

  /** The canonical `MM-DD-YYYY` text of every valid date comes out as `MMDDYYYY`. */
  lemma ReformatCanonical(d: Date)
    requires ValidDate(d)
    ensures Reformat(Canonical(d)) == Ok(Pad2(d.month) + Pad2(d.day) + Pad4(d.year))
  {
    StrptimeAccepts(d, Pad2(d.month), Pad2(d.day));
  }

  /** Reading the eight output digits back as month, day and year. */
  function ReadCompact(r: string): Date
    requires |r| == 8 && AllDigits(r)
  {
    Date(ReadNatural(r[..2]), ReadNatural(r[2..4]), ReadNatural(r[4..]))
  }

  /** The output holds month, day and year, in that order. */
  lemma RenderRoundTrip(d: Date)
    requires ValidDate(d)
    ensures ReadCompact(Render(d)) == d
  {
    var r := Render(d);
    assert r[..2] == Pad2(d.month) && r[2..4] == Pad2(d.day) && r[4..] == Pad4(d.year);
    Pad2RoundTrip(d.month);
    Pad2RoundTrip(d.day);
    Pad4RoundTrip(d.year);
  }
}
