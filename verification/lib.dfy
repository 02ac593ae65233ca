/** The helpers of `src/lib.ts`: decimal digits, `String(n)`, `padStart`,
    `join`, `split`, number parsing, and the YYYYMMDD date-string functions
    built on them. A `Result` stands for a function that may throw. */
module Lib {
  import opened Wrappers
  import opened Calendar

  /** What the helpers and the services built on them throw. */
  datatype Error =
    | InvalidDateStringFormat   // 'Invalid date string format'
    | InvalidNumberFormat       // 'Invalid number format'
    | InvalidDateArrayFormat    // 'Invalid date array format'
    | InvalidDateValues         // 'Invalid date values'
    | UndefinedProperty         // a TypeError: reading a property of `undefined`

  // ---------------------------------------------------------------------
  // Decimal digits

  predicate IsDigit(c: char) {
    '0' <= c <= '9'
  }

  function DigitValue(c: char): (d: nat)
    requires IsDigit(c)
    ensures d < 10
  {
    c as int - '0' as int
  }

  function DigitChar(d: nat): (c: char)
    requires d < 10
    ensures IsDigit(c) && DigitValue(c) == d
  {
    ('0' as int + d) as char
  }

  predicate AllDigits(s: string) {
    forall i | 0 <= i < |s| :: IsDigit(s[i])
  }

  /** A digit string without superfluous leading zeros. */
  predicate Canonical(s: string) {
    1 <= |s| && AllDigits(s) && (|s| > 1 ==> s[0] != '0')
  }

  /** The value of a string of decimal digits (what `Number(s)` gives). */
  function DigitsValue(s: string): nat
    requires AllDigits(s)
  {
    if |s| == 0 then 0 else DigitsValue(s[..|s| - 1]) * 10 + DigitValue(s[|s| - 1])
  }

  function Pow10(n: nat): (p: nat)
    ensures p >= 1
  {
    if n == 0 then 1 else 10 * Pow10(n - 1)
  }

  /** `String(n)` for a non-negative integer: its canonical decimal digits. */
  function NatToString(n: nat): (s: string)
    ensures Canonical(s)
    ensures DigitsValue(s) == n
  {
    if n < 10 then [DigitChar(n)]
    else
      var p := NatToString(n / 10);
      var s := p + [DigitChar(n % 10)];
      assert s[..|s| - 1] == p;
      s
  }

  /** `String(n)` for any integer. */
  function IntToString(n: int): string {
    if n < 0 then "-" + NatToString(-n) else NatToString(n)
  }

  lemma {:induction false} DigitsValuePositive(s: string)
    requires Canonical(s) && s[0] != '0'
    ensures DigitsValue(s) >= 1
  {
    if |s| > 1 {
      var p := s[..|s| - 1];
      assert p[0] == s[0];
      DigitsValuePositive(p);
    }
  }

  /** Printing the value of a canonical digit string gives the string back. */
  lemma {:induction false} DigitsRoundTrip(s: string)
    requires Canonical(s)
    ensures NatToString(DigitsValue(s)) == s
  {
    var p := s[..|s| - 1];
    var c := s[|s| - 1];
    if |s| == 1 {
      assert DigitChar(DigitValue(c)) == c;
      assert [c] == s;
    } else {
      assert p[0] == s[0];
      DigitsValuePositive(p);
      DigitsRoundTrip(p);
      assert DigitChar(DigitValue(c)) == c;
      var n := DigitsValue(s);
      assert n / 10 == DigitsValue(p) && n % 10 == DigitValue(c);
      assert s == p + [c];
    }
  }

  /** Two digit strings of the same length are equal when their values are. */
  lemma {:induction false} DigitsValueInjective(a: string, b: string)
    requires AllDigits(a) && AllDigits(b) && |a| == |b|
    requires DigitsValue(a) == DigitsValue(b)
    ensures a == b
  {
    if |a| > 0 {
      var a', b' := a[..|a| - 1], b[..|b| - 1];
      assert DigitValue(a[|a| - 1]) == DigitValue(b[|b| - 1]);
      DigitsValueInjective(a', b');
      assert a == a' + [a[|a| - 1]] && b == b' + [b[|b| - 1]];
    }
  }

  /** The value of a concatenation: the left digits shifted by the right length. */
  lemma {:induction false} DigitsValueAppend(a: string, b: string)
    requires AllDigits(a) && AllDigits(b)
    ensures AllDigits(a + b)
    ensures DigitsValue(a + b) == DigitsValue(a) * Pow10(|b|) + DigitsValue(b)
  {
    var ab := a + b;
    if |b| == 0 {
      assert ab == a;
    } else {
      var b' := b[..|b| - 1];
      var last := DigitValue(b[|b| - 1]);
      assert ab[..|ab| - 1] == a + b';
      assert ab[|ab| - 1] == b[|b| - 1];
      DigitsValueAppend(a, b');
      assert DigitsValue(ab) == DigitsValue(a + b') * 10 + last;
      assert DigitsValue(b) == DigitsValue(b') * 10 + last;
      ShiftStep(DigitsValue(a), DigitsValue(b'), Pow10(|b'|), last);
    }
  }

  lemma ShiftStep(va: nat, vb: nat, p: nat, last: nat)
    ensures (va * p + vb) * 10 + last == va * (10 * p) + (vb * 10 + last)
  {
    assert (va * p) * 10 == va * (10 * p);
  }

  // ---------------------------------------------------------------------
  // padStart, join, split, replace

  /** `s.padStart(2, '0')`. */
  function PadStart2(s: string): (r: string)
    ensures |r| == if |s| >= 2 then |s| else 2
  {
    if |s| >= 2 then s else if |s| == 1 then "0" + s else "00"
  }

  /** `padStart` keeps the input as the suffix and fills with '0' before it. */
  lemma PadStart2Pads(s: string)
    ensures PadStart2(s)[|PadStart2(s)| - |s|..] == s
    ensures forall i | 0 <= i < |PadStart2(s)| - |s| :: PadStart2(s)[i] == '0'
  {
  }

  /** `parts.join(sep)`. */
  function Join(parts: seq<string>, sep: string): string {
    if |parts| == 0 then ""
    else if |parts| == 1 then parts[0]
    else parts[0] + sep + Join(parts[1..], sep)
  }

  /** `s.split(c)` for a one-character separator. */
  function SplitOn(s: string, c: char): (parts: seq<string>)
    ensures |parts| >= 1
  {
    if |s| == 0 then [""]
    else
      var rest := SplitOn(s[1..], c);
      if s[0] == c then [""] + rest else [[s[0]] + rest[0]] + rest[1..]
  }

  /** Splitting and joining back on the same character is the identity. */
  lemma {:induction false} JoinSplitOn(s: string, c: char)
    ensures Join(SplitOn(s, c), [c]) == s
  {
    if |s| > 0 {
      var rest := SplitOn(s[1..], c);
      JoinSplitOn(s[1..], c);
      if s[0] == c {
        assert SplitOn(s, c) == [""] + rest;
      } else {
        var parts := SplitOn(s, c);
        assert parts == [[s[0]] + rest[0]] + rest[1..];
        if |rest| == 1 {
          assert s == [s[0]] + rest[0];
        } else {
          assert rest == [rest[0]] + rest[1..];
          assert Join(rest, [c]) == rest[0] + [c] + Join(rest[1..], [c]);
          assert parts[1..] == rest[1..];
          assert s == [s[0]] + s[1..];
        }
      }
    }
  }

  /** A string without the separator splits into itself. */
  lemma {:induction false} SplitOnAbsent(s: string, c: char)
    requires c !in s
    ensures SplitOn(s, c) == [s]
  {
    if |s| > 0 {
      SplitOnAbsent(s[1..], c);
      assert [s[0]] + s[1..] == s;
    }
  }

  /** The first separator ends the first part. */
  lemma {:induction false} SplitOnFirst(a: string, c: char, b: string)
    requires c !in a
    ensures SplitOn(a + [c] + b, c) == [a] + SplitOn(b, c)
  {
    var s := a + [c] + b;
    if |a| == 0 {
      assert s[1..] == b;
    } else {
      assert s[1..] == a[1..] + [c] + b;
      SplitOnFirst(a[1..], c, b);
      assert [a[0]] + a[1..] == a;
    }
  }

  /** `s.replace(/,/g, '')`. */
  function StripCommas(s: string): (r: string)
    ensures ',' !in r
    ensures |r| <= |s|
  {
    if |s| == 0 then ""
    else if s[0] == ',' then StripCommas(s[1..])
    else [s[0]] + StripCommas(s[1..])
  }

  lemma {:induction false} StripCommasNoop(s: string)
    requires ',' !in s
    ensures StripCommas(s) == s
  {
    if |s| > 0 {
      StripCommasNoop(s[1..]);
      assert [s[0]] + s[1..] == s;
    }
  }

  // ---------------------------------------------------------------------
  // Number parsing

  /** Length of the longest prefix of `s` made of digits. */
  function DigitPrefixLength(s: string): (n: nat)
    ensures n <= |s|
    ensures AllDigits(s[..n])
    ensures n < |s| ==> !IsDigit(s[n])
  {
    if |s| == 0 || !IsDigit(s[0]) then 0
    else
      var n := 1 + DigitPrefixLength(s[1..]);
      assert s[..n] == [s[0]] + s[1..][..n - 1];
      n
  }

  /** `parseFloat` on an optional sign followed by decimal digits: `None` is `NaN`. */
  function ParseLeadingInteger(s: string): Option<int> {
    var negative := |s| > 0 && s[0] == '-';
    var body := if |s| > 0 && (s[0] == '-' || s[0] == '+') then s[1..] else s;
    var n := DigitPrefixLength(body);
    if n == 0 then None
    else if negative then Some(-(DigitsValue(body[..n]) as int))
    else Some(DigitsValue(body[..n]))
  }

  /** `stringToNumber`: drop commas, parse, throw when no number is found. */
  function StringToNumber(value: string): (r: Result<int, Error>)
    ensures r.Failure? ==> r.error == InvalidNumberFormat
  {
    match ParseLeadingInteger(StripCommas(value))
    case None => Failure(InvalidNumberFormat)
    case Some(n) => Success(n)
  }

  /** A string of digits parses to its decimal value. */
  lemma StringToNumberOfDigits(s: string)
    requires AllDigits(s) && |s| >= 1
    ensures StringToNumber(s) == Success(DigitsValue(s) as int)
  {
    assert forall i | 0 <= i < |s| :: s[i] != ',';
    StripCommasNoop(s);
    DigitPrefixOf(s, "");
    assert s + "" == s;
    assert s[..|s|] == s;
  }

  /** Commas are ignored wherever they stand. */
  lemma {:induction false} StringToNumberIgnoresComma(a: string, b: string)
    ensures StringToNumber(a + "," + b) == StringToNumber(a + b)
  {
    StripCommasSkipsComma(a, b);
  }

  lemma {:induction false} StripCommasSkipsComma(a: string, b: string)
    ensures StripCommas(a + "," + b) == StripCommas(a + b)
  {
    if |a| == 0 {
      assert (a + "," + b)[1..] == b;
      assert a + b == b;
    } else {
      assert (a + "," + b)[1..] == a[1..] + "," + b;
      assert (a + b)[1..] == a[1..] + b;
      StripCommasSkipsComma(a[1..], b);
    }
  }

  /** A string with no digit at all does not parse: the call throws. */
  lemma StringToNumberWithoutDigits(s: string)
    requires forall i | 0 <= i < |s| :: !IsDigit(s[i])
    ensures StringToNumber(s) == Failure(InvalidNumberFormat)
  {
    var t := StripCommas(s);
    StripCommasKeepsNoDigits(s);
    var body := if |t| > 0 && (t[0] == '-' || t[0] == '+') then t[1..] else t;
    assert |body| > 0 ==> !IsDigit(body[0]);
  }

  lemma {:induction false} StripCommasKeepsNoDigits(s: string)
    requires forall i | 0 <= i < |s| :: !IsDigit(s[i])
    ensures forall i | 0 <= i < |StripCommas(s)| :: !IsDigit(StripCommas(s)[i])
  {
    if |s| > 0 {
      StripCommasKeepsNoDigits(s[1..]);
    }
  }

  // ---------------------------------------------------------------------
  // YYYYMMDD date strings

  /** `dateToYYYYMMDD`: year, 1-based month and day, the last two padded. */
  function DateToYYYYMMDD(date: CalendarDate, separator: string := ""): (r: string)
    ensures 1000 <= date.year <= 9999 && 0 <= date.month <= 11 && 1 <= date.day <= 31
            ==> |r| == 8 + 2 * |separator|
  {
    var r := JoinFields(IntToString(date.year), PadStart2(IntToString(date.month + 1)), PadStart2(IntToString(date.day)), separator);
    assert 1000 <= date.year <= 9999 && 0 <= date.month <= 11 && 1 <= date.day <= 31 ==> |r| == 8 + 2 * |separator| by {
      if 1000 <= date.year <= 9999 && 0 <= date.month <= 11 && 1 <= date.day <= 31 {
        FourDigitYear(date.year);
        TwoDigitField(date.month + 1);
        TwoDigitField(date.day);
      }
    }
    r
  }

  /** `[year, month, day].join(separator)`. */
  function JoinFields(year: string, month: string, day: string, separator: string): (r: string)
    ensures r == Join([year, month, day], separator)
  {
    JoinThree(year, month, day, separator);
    year + separator + month + separator + day
  }

  /** `splitYYYYMMDD`: [year, zero-based month, day]; no range check. A string
      longer than 8 is split on its character at index 2. */
  function SplitYYYYMMDD(dateString: string): (r: Result<seq<int>, Error>)
    ensures r.Success? ==> |r.value| == 3
    ensures r.Failure? ==> r.error == InvalidDateStringFormat || r.error == InvalidNumberFormat
    ensures |dateString| < 8 ==> r == Failure(InvalidDateStringFormat)
  {
    if |dateString| == 8 then
      ParseFields(dateString[0..4], dateString[4..6], dateString[6..8])
    else if |dateString| > 8 then
      var split := SplitOn(dateString, dateString[2]);
      if |split| != 3 then Failure(InvalidDateStringFormat)
      else ParseFields(split[0], split[1], split[2])
    else
      Failure(InvalidDateStringFormat)
  }

  /** The three `stringToNumber` calls of `splitYYYYMMDD`, in order, the month
      made zero-based. */
  function ParseFields(year: string, month: string, day: string): Result<seq<int>, Error> {
    var y :- StringToNumber(year);
    var m :- StringToNumber(month);
    var d :- StringToNumber(day);
    Success([y, m - 1, d])
  }

  /** `concatYYYYMMDD`: checks the array and the ranges, then formats. */
  function ConcatYYYYMMDD(splitDate: seq<int>, separator: string := ""): (r: Result<string, Error>)
    ensures |splitDate| != 3 ==> r == Failure(InvalidDateArrayFormat)
    ensures r.Success? ==> r.value == DateToYYYYMMDD(CalendarDate(splitDate[0], splitDate[1], splitDate[2]), separator)
  {
    if |splitDate| != 3 then Failure(InvalidDateArrayFormat)
    else
      var year, month, day := splitDate[0], splitDate[1], splitDate[2];
      if month < 0 || month > 11 || day < 1 || day > 31 then Failure(InvalidDateValues)
      else Success(JoinFields(IntToString(year), PadStart2(IntToString(month + 1)), PadStart2(IntToString(day)), separator))
  }

  /** The year `new Date(y, m, d)` takes from its first argument: 0 to 99
      stand for 1900 to 1999, any other value for itself. */
  function FullYear(y: int): int {
    if 0 <= y <= 99 then 1900 + y else y
  }

  /** `dateFromYYYYMMDD`: the split fields as a date, a year of 0 to 99 read
      as 19xx (roll-over of impossible days by `new Date(y, m, d)` is not
      modelled). */
  function DateFromYYYYMMDD(dateString: string): (r: Result<CalendarDate, Error>)
    ensures r.Success? <==> SplitYYYYMMDD(dateString).Success?
    ensures IsDateKey(dateString) ==> r == Success(KeyDate(dateString))
  {
    var split :- SplitYYYYMMDD(dateString);
    assert IsDateKey(dateString) ==> FullYear(split[0]) == KeyYear(dateString) && split[1..] == [KeyMonth(dateString) - 1, KeyDay(dateString) as int] by {
      if IsDateKey(dateString) {
        SplitKey(dateString);
        KeyNumberFields(dateString);
      }
    }
    Success(CalendarDate(FullYear(split[0]), split[1], split[2]))
  }

  /** A year field of `00` to `0099` is read as 1900 to 1999, as `new Date`
      reads it: "00991231" is the last day of 1999. */
  lemma TwoDigitYearIs19xx(s: string)
    requires |s| == 8 && AllDigits(s) && s[0] == '0' && s[1] == '0'
    ensures DateFromYYYYMMDD(s)
            == Success(CalendarDate(1900 + DigitsValue(s[2..4]), DigitsValue(s[4..6]) - 1, DigitsValue(s[6..8])))
  {
    KeyFieldsFromDigits(s);
    StringToNumberOfDigits(s[0..4]);
    StringToNumberOfDigits(s[4..6]);
    StringToNumberOfDigits(s[6..8]);
    var hi, lo := s[0..2], s[2..4];
    assert s[0..4] == hi + lo;
    DigitsValueAppend(hi, lo);
    assert DigitsValue(hi) == 0 by {
      assert hi[0] == '0' && hi[1] == '0';
      assert hi[..1][..0] == [];
      assert DigitsValue(hi[..1]) == 0;
    }
    assert DigitsValue(lo) <= 99 by {
      assert lo[..1] == [s[2]];
    }
  }

  lemma TheLastDayOf1999(s: string)
    requires s == "00991231"
    ensures DateFromYYYYMMDD(s) == Success(CalendarDate(1999, 11, 31))
  {
    assert |s| == 8 && AllDigits(s) && s[0] == '0' && s[1] == '0';
    TwoDigitYearIs19xx(s);
    TwoDigitsValue(s[2..4]);
    TwoDigitsValue(s[4..6]);
    TwoDigitsValue(s[6..8]);
  }

  lemma TwoDigitsValue(t: string)
    requires |t| == 2 && AllDigits(t)
    ensures DigitsValue(t) == DigitValue(t[0]) * 10 + DigitValue(t[1])
  {
    var h := t[..1];
    assert h[..0] == [] && h[0] == t[0];
    assert DigitsValue(h) == DigitValue(t[0]);
  }

  // ---------------------------------------------------------------------
  // Canonical date keys

  /** An 8-digit `YYYYMMDD` key with a four-digit year, month 01-12 and day 01-31. */
  predicate IsDateKey(k: string) {
    |k| == 8 && AllDigits(k) && k[0] != '0'
    && 1 <= DigitsValue(k[4..6]) <= 12 && 1 <= DigitsValue(k[6..8]) <= 31
  }

  function KeyYear(k: string): nat requires IsDateKey(k) { DigitsValue(k[0..4]) }
  function KeyMonth(k: string): nat requires IsDateKey(k) { DigitsValue(k[4..6]) }
  function KeyDay(k: string): nat requires IsDateKey(k) { DigitsValue(k[6..8]) }

  /** The date a key denotes (`getMonth()` is zero-based). */
  function KeyDate(k: string): CalendarDate
    requires IsDateKey(k)
  {
    CalendarDate(KeyYear(k), KeyMonth(k) - 1, KeyDay(k))
  }

  /** `Number(k)`, by which the services sort keys. */
  function KeyNumber(k: string): nat
    requires IsDateKey(k)
  {
    DigitsValue(k)
  }

  lemma KeyFieldsFromDigits(k: string)
    requires AllDigits(k) && |k| == 8
    ensures AllDigits(k[0..4]) && AllDigits(k[4..6]) && AllDigits(k[6..8])
  {
  }

  /** A key's number is its year, month and day in positional notation. */
  lemma KeyNumberFields(k: string)
    requires IsDateKey(k)
    ensures KeyNumber(k) == KeyYear(k) * 10000 + KeyMonth(k) * 100 + KeyDay(k)
    ensures 1000 <= KeyYear(k) <= 9999
  {
    var y, m, d := k[0..4], k[4..6], k[6..8];
    assert k == y + m + d;
    assert y + m + d == y + (m + d);
    DigitsValueAppend(m, d);
    DigitsValueAppend(y, m + d);
    assert Pow10(2) == 100 && Pow10(4) == 10000;
    assert y[0] == k[0];
    DigitsValuePositive(y);
    assert y == k[0..4];
    FourDigitsBound(y);
  }

  lemma FourDigitsBound(y: string)
    requires AllDigits(y) && |y| == 4 && y[0] != '0'
    ensures 1000 <= DigitsValue(y) <= 9999
  {
    var a := y[..3];
    var b := a[..2];
    var c := b[..1];
    assert DigitsValue(y) == DigitsValue(a) * 10 + DigitValue(y[3]);
    assert DigitsValue(a) == DigitsValue(b) * 10 + DigitValue(a[2]);
    assert DigitsValue(b) == DigitsValue(c) * 10 + DigitValue(b[1]);
    assert c[..0] == "";
    assert DigitsValue(c) == DigitValue(c[0]);
    assert c[0] == y[0];
  }

  /** Keys in numeric order are dates in chronological order. */
  lemma KeyOrderIsDateOrder(a: string, b: string)
    requires IsDateKey(a) && IsDateKey(b)
    ensures KeyNumber(a) <= KeyNumber(b) <==> Le(KeyDate(a), KeyDate(b))
    ensures KeyNumber(a) == KeyNumber(b) <==> a == b
  {
    KeyNumberFields(a);
    KeyNumberFields(b);
    if KeyNumber(a) == KeyNumber(b) {
      DigitsValueInjective(a, b);
    }
  }

  /** The year of a key, printed, is its first four characters. */
  lemma KeyYearPrints(k: string)
    requires IsDateKey(k)
    ensures IntToString(KeyYear(k)) == k[0..4]
  {
    assert k[0..4][0] == k[0];
    DigitsRoundTrip(k[0..4]);
  }

  /** A two-digit field with value at least one, printed and padded, is itself. */
  lemma PaddedFieldPrints(t: string)
    requires |t| == 2 && AllDigits(t) && DigitsValue(t) >= 1
    ensures PadStart2(IntToString(DigitsValue(t))) == t
  {
    assert t[..1][..0] == "";
    assert t[..2 - 1] == t[..1];
    if t[0] == '0' {
      assert DigitsValue(t[..1]) == 0;
      assert DigitsValue(t) == DigitValue(t[1]);
      assert DigitChar(DigitValue(t[1])) == t[1];
      assert NatToString(DigitsValue(t)) == [t[1]];
      assert "0" + [t[1]] == t;
    } else {
      DigitsRoundTrip(t);
    }
  }

  /** Splitting a key yields its fields (month zero-based). */
  lemma SplitKey(k: string)
    requires IsDateKey(k)
    ensures SplitYYYYMMDD(k) == Success([KeyYear(k) as int, KeyMonth(k) - 1, KeyDay(k) as int])
  {
    StringToNumberOfDigits(k[0..4]);
    StringToNumberOfDigits(k[4..6]);
    StringToNumberOfDigits(k[6..8]);
  }

  /** Round trip: concatenating the split of a key gives the key back. */
  lemma SplitConcatRoundTrip(k: string)
    requires IsDateKey(k)
    ensures SplitYYYYMMDD(k).Success?
    ensures ConcatYYYYMMDD(SplitYYYYMMDD(k).value) == Success(k)
  {
    SplitKey(k);
    var v := SplitYYYYMMDD(k).value;
    var date := KeyDate(k);
    assert v == [date.year, date.month, date.day];
    DateToYYYYMMDDOfKey(k);
    DateToMatchesConcat(date, "");
  }

  lemma EightSplit(k: string)
    requires |k| == 8
    ensures k[0..4] + k[4..6] + k[6..8] == k
    ensures k[0..4] + "" + k[4..6] + "" + k[6..8] == k
  {
  }

  /** Concatenating a key's fields (month zero-based) gives the key. */
  lemma ConcatKeyFields(k: string)
    requires IsDateKey(k)
    ensures ConcatYYYYMMDD([KeyYear(k) as int, KeyMonth(k) - 1, KeyDay(k) as int]) == Success(k)
  {
    SplitConcatRoundTrip(k);
    SplitKey(k);
  }

  /** `dateToYYYYMMDD` of a key's date is the key. */
  lemma DateToYYYYMMDDOfKey(k: string)
    requires IsDateKey(k)
    ensures DateToYYYYMMDD(KeyDate(k)) == k
  {
    var y, m, d := k[0..4], k[4..6], k[6..8];
    assert y[0] == k[0];
    FieldsPrint(y, m, d);
    assert y + m + d == k;
  }

  /** Printing the values of a year, month and day field gives the fields. */
  lemma {:induction false} FieldsPrint(y: string, m: string, d: string)
    requires Canonical(y) && |y| == 4 && AllDigits(m) && |m| == 2 && AllDigits(d) && |d| == 2
    requires 1 <= DigitsValue(m) && 1 <= DigitsValue(d)
    ensures DateToYYYYMMDD(CalendarDate(DigitsValue(y), DigitsValue(m) - 1, DigitsValue(d))) == y + m + d
  {
    var date := CalendarDate(DigitsValue(y), DigitsValue(m) - 1, DigitsValue(d));
    DigitsRoundTrip(y);
    PaddedFieldPrints(m);
    PaddedFieldPrints(d);
    assert date.month + 1 == DigitsValue(m);
    FormatFields(date, y, m, d);
  }

  /** `dateToYYYYMMDD` concatenates the printed fields. */
  lemma FormatFields(date: CalendarDate, y: string, m: string, d: string)
    requires IntToString(date.year) == y
    requires PadStart2(IntToString(date.month + 1)) == m && PadStart2(IntToString(date.day)) == d
    ensures DateToYYYYMMDD(date) == y + m + d
  {
    JoinFieldsUnseparated(y, m, d);
  }

  lemma JoinFieldsUnseparated(a: string, b: string, c: string)
    ensures JoinFields(a, b, c, "") == a + b + c
  {
    assert a + "" == a;
    assert a + b + "" == a + b;
  }

  lemma JoinThree(a: string, b: string, c: string, sep: string)
    ensures Join([a, b, c], sep) == a + sep + b + sep + c
  {
    assert [a, b, c][1..] == [b, c];
    assert [b, c][1..] == [c];
    assert Join([b, c], sep) == b + sep + c;
    assert a + sep + (b + sep + c) == a + sep + b + sep + c;
  }

  /** On in-range fields both formatters agree: `dateToYYYYMMDD` is
      `concatYYYYMMDD` of the date's fields. */
  lemma DateToMatchesConcat(date: CalendarDate, separator: string)
    requires 0 <= date.month <= 11 && 1 <= date.day <= 31
    ensures ConcatYYYYMMDD([date.year, date.month, date.day], separator) == Success(DateToYYYYMMDD(date, separator))
  {
  }

  /** The ranges `concatYYYYMMDD` accepts: it throws exactly outside them. */
  lemma ConcatAccepts(splitDate: seq<int>, separator: string)
    ensures ConcatYYYYMMDD(splitDate, separator).Success?
        <==> |splitDate| == 3 && 0 <= splitDate[1] <= 11 && 1 <= splitDate[2] <= 31
    ensures |splitDate| != 3 ==> ConcatYYYYMMDD(splitDate, separator) == Failure(InvalidDateArrayFormat)
  {
  }

  /** Round trip the other way: a four-digit year with in-range month and day
      is formatted as a key, and splitting that key gives the fields back. */
  lemma ConcatSplitRoundTrip(year: int, month: int, day: int)
    requires 1000 <= year <= 9999 && 0 <= month <= 11 && 1 <= day <= 31
    ensures ConcatYYYYMMDD([year, month, day]).Success?
    ensures IsDateKey(ConcatYYYYMMDD([year, month, day]).value)
    ensures SplitYYYYMMDD(ConcatYYYYMMDD([year, month, day]).value) == Success([year, month, day])
  {
    var y := NatToString(year);
    var m := PadStart2(NatToString(month + 1));
    var d := PadStart2(NatToString(day));
    var k := y + m + d;
    assert ConcatYYYYMMDD([year, month, day]) == Success(k) by {
      ConcatOfFields(year, month, day);
    }
    assert IsDateKey(k) && KeyYear(k) == year && KeyMonth(k) == month + 1 && KeyDay(k) == day by {
      FourDigitYear(year);
      TwoDigitField(month + 1);
      TwoDigitField(day);
      AssembleKey(y, m, d);
    }
    SplitKey(k);
  }

  lemma ConcatOfFields(year: nat, month: int, day: int)
    requires 0 <= month <= 11 && 1 <= day <= 31
    ensures ConcatYYYYMMDD([year, month, day])
         == Success(NatToString(year) + PadStart2(NatToString(month + 1)) + PadStart2(NatToString(day)))
  {
    var y, m, d := NatToString(year), PadStart2(NatToString(month + 1)), PadStart2(NatToString(day));
    JoinFieldsUnseparated(y, m, d);
  }

  /** Four digits, then two, then two, in range, make a key with those fields. */
  lemma AssembleKey(y: string, m: string, d: string)
    requires Canonical(y) && |y| == 4 && AllDigits(m) && |m| == 2 && AllDigits(d) && |d| == 2
    requires 1 <= DigitsValue(m) <= 12 && 1 <= DigitsValue(d) <= 31
    ensures IsDateKey(y + m + d)
    ensures KeyYear(y + m + d) == DigitsValue(y)
    ensures KeyMonth(y + m + d) == DigitsValue(m)
    ensures KeyDay(y + m + d) == DigitsValue(d)
  {
    var k := y + m + d;
    assert k[0..4] == y && k[4..6] == m && k[6..8] == d;
  }

  lemma TwoDigitField(n: nat)
    requires 1 <= n <= 31
    ensures |PadStart2(NatToString(n))| == 2 && AllDigits(PadStart2(NatToString(n)))
    ensures DigitsValue(PadStart2(NatToString(n))) == n
  {
    var s := NatToString(n);
    if n < 10 {
      assert s == [DigitChar(n)];
      var p := PadStart2(s);
      assert p == ['0', DigitChar(n)];
      assert p[..1][..0] == "";
    } else {
      assert n / 10 < 10;
      assert |NatToString(n / 10)| == 1;
    }
  }

  lemma FourDigitYear(n: nat)
    requires 1000 <= n <= 9999
    ensures |NatToString(n)| == 4
  {
    assert n / 10 / 10 / 10 < 10;
    assert |NatToString(n / 10 / 10 / 10)| == 1;
    assert |NatToString(n / 10 / 10)| == 2;
    assert |NatToString(n / 10)| == 3;
  }

  // ---------------------------------------------------------------------
  // Finding: the separator is taken from index 2

  /** As written, a `YYYY-MM-DD` string is split on its third year digit, so a
      plain ISO date does not parse. */
  lemma SplitIsoDateFails()
    ensures SplitYYYYMMDD("2024-11-05").Failure?
  {
    IsoDateSplitsOnTwo();
    assert StringToNumber("") == Failure(InvalidNumberFormat);
  }

  lemma IsoDateSplitsOnTwo()
    ensures "2024-11-05"[2] == '2'
    ensures SplitOn("2024-11-05", '2') == ["", "0", "4-11-05"]
  {
    var t, u := "024-11-05", "4-11-05";
    SplitOnAbsent(u, '2');
    assert SplitOn(t, '2') == ["0", u] by {
      IsoDateTail();
      SplitOnFirst("0", '2', u);
    }
    IsoDateHead();
    SplitOnFirst("", '2', t);
  }

  lemma IsoDateHead()
    ensures "2024-11-05" == "" + ['2'] + "024-11-05"
  {
  }

  lemma IsoDateTail()
    ensures "024-11-05" == "0" + ['2'] + "4-11-05"
  {
  }

  /** As written, a well-formed date can also split into wrong fields:
      "1123-05-27" splits on '2' into "11", "3-05-" and "7". */
  lemma SplitIsoDateMisreads()
    ensures SplitYYYYMMDD("1123-05-27") == Success([11, 2, 7])
  {
    MisreadSplitsOnTwo();
    MisreadFieldsParse();
  }

  lemma MisreadSplitsOnTwo()
    ensures "1123-05-27"[2] == '2'
    ensures SplitOn("1123-05-27", '2') == ["11", "3-05-", "7"]
  {
    var t, u := "3-05-27", "7";
    SplitOnAbsent(u, '2');
    assert SplitOn(t, '2') == ["3-05-", u] by {
      MisreadTail();
      SplitOnFirst("3-05-", '2', u);
    }
    MisreadHead();
    SplitOnFirst("11", '2', t);
  }

  lemma MisreadHead()
    ensures "1123-05-27" == "11" + ['2'] + "3-05-27"
  {
  }

  lemma MisreadTail()
    ensures "3-05-27" == "3-05-" + ['2'] + "7"
  {
  }

  lemma MisreadFieldsParse()
    ensures ParseFields("11", "3-05-", "7") == Success([11, 2, 7])
  {
    assert StringToNumber("11") == Success(11) by {
      StringToNumberOfDigits("11");
    }
    assert StringToNumber("7") == Success(7) by {
      StringToNumberOfDigits("7");
    }
    assert StringToNumber("3-05-") == Success(3) by {
      assert "3-05-" == "3" + "-05-";
      StringToNumberStopsAtNonDigit("3", "-05-");
    }
  }

  /** Parsing stops at the first character that is not a digit. */
  lemma StringToNumberStopsAtNonDigit(digits: string, rest: string)
    requires Canonical(digits) && ',' !in rest && |rest| > 0 && !IsDigit(rest[0])
    ensures StringToNumber(digits + rest) == Success(DigitsValue(digits) as int)
  {
    var s := digits + rest;
    assert forall i | 0 <= i < |digits| :: digits[i] != ',';
    assert ',' !in s;
    StripCommasNoop(s);
    DigitPrefixOf(digits, rest);
    assert s[..|digits|] == digits;
  }

  lemma {:induction false} DigitPrefixOf(digits: string, rest: string)
    requires AllDigits(digits) && (|rest| == 0 || !IsDigit(rest[0]))
    ensures DigitPrefixLength(digits + rest) == |digits|
  {
    if |digits| > 0 {
      assert (digits + rest)[1..] == digits[1..] + rest;
      DigitPrefixOf(digits[1..], rest);
    } else {
      assert digits + rest == rest;
    }
  }

  /** `splitYYYYMMDD` as evidently intended: the separator of a
      `YYYY<sep>MM<sep>DD` string is the character after the year. */
  function SplitYYYYMMDDFixed(dateString: string): (r: Result<seq<int>, Error>)
    ensures |dateString| <= 8 ==> r == SplitYYYYMMDD(dateString)
    ensures r.Success? ==> |r.value| == 3
  {
    if |dateString| == 8 then SplitYYYYMMDD(dateString)
    else if |dateString| > 8 then
      var split := SplitOn(dateString, dateString[4]);
      if |split| != 3 then Failure(InvalidDateStringFormat)
      else ParseFields(split[0], split[1], split[2])
    else
      Failure(InvalidDateStringFormat)
  }

  /** The corrected split reads a separated key exactly as the unseparated one,
      whatever non-digit separator is used. */
  lemma SplitFixedSeparated(k: string, c: char)
    requires IsDateKey(k) && !IsDigit(c)
    ensures SplitYYYYMMDDFixed(k[0..4] + [c] + k[4..6] + [c] + k[6..8]) == SplitYYYYMMDD(k)
  {
    var y, m, d := k[0..4], k[4..6], k[6..8];
    var s := y + [c] + m + [c] + d;
    assert c !in y && c !in m && c !in d by {
      assert forall i | 0 <= i < 8 :: IsDigit(k[i]);
    }
    assert s[4] == c;
    assert s == y + [c] + (m + [c] + d);
    SplitOnFirst(y, c, m + [c] + d);
    SplitOnFirst(m, c, d);
    SplitOnAbsent(d, c);
    assert SplitOn(s, c) == [y, m, d];
    SplitKey(k);
    StringToNumberOfDigits(y);
    StringToNumberOfDigits(m);
    StringToNumberOfDigits(d);
  }
}
