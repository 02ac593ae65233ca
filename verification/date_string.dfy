/** The `DateString` of the core library (`projects/core/src/lib/types/date-string.ts`):
    a calendar date together with its canonical `YYYYMMDD` string (no
    separator) and a separator kept for display. The fields are set once by
    the constructor and never change, so the class is a value here. */
module DateStrings {
  import opened Wrappers
  import opened Calendar
  import opened Lib

  /** A non-`undefined` argument of `new DateString(date, separator)`. A number
      is an instant in milliseconds since the epoch; `local` is the calendar
      date that instant falls on in the local time zone (the conversion
      depends on the zone and is left to the caller). */
  datatype DateArg =
    | Text(text: string)
    | Millis(ms: int, local: CalendarDate)
    | Moment(moment: CalendarDate)

  /** `!date`: `undefined`, the empty string and the number 0 are falsy. */
  predicate Falsy(date: Option<DateArg>) {
    match date
    case None => true
    case Some(Text(s)) => s == ""
    case Some(Millis(ms, _)) => ms == 0
    case Some(Moment(_)) => false
  }

  /** The separator `getValueWithSeparator` joins with: the argument, or
      the stored separator when the argument is omitted or empty. */
  function SeparatorOr(separator: Option<string>, stored: string): string {
    if separator.None? || separator.value == "" then stored else separator.value
  }

  datatype DateString = DateString(date: CalendarDate, dateString: string, separator: string)
  {
    /** `getValue()`: the stored string, without separator. */
    function GetValue(): string {
      dateString
    }

    /** `toString()`. */
    function ToString(): string {
      GetValue()
    }

    /** `split()`: year, one-based month and day of the stored date. */
    function Split(): (parts: seq<int>)
      ensures |parts| == 3
    {
      [date.year, date.month + 1, date.day]
    }

    /** `getValueWithSeparator(separator?)`: each component of `split()` is
        padded to two digits, then joined; an omitted or empty argument falls
        back to the stored separator. */
    function GetValueWithSeparator(separator: Option<string>): (r: string)
      ensures PadStart2(IntToString(date.year)) + SeparatorOr(separator, this.separator) <= r
    {
      var sep := SeparatorOr(separator, this.separator);
      var parts := Split();
      JoinFields(PadStart2(IntToString(parts[0])), PadStart2(IntToString(parts[1])), PadStart2(IntToString(parts[2])), sep)
    }
  }

  /** `new DateString(date, separator)`, with `now` the current local date.
      A string argument is split and re-concatenated (either may throw); the
      separator argument is only stored. */
  function Create(date: Option<DateArg>, separator: string, now: CalendarDate): (r: Result<DateString, Error>)
    ensures r.Success? ==> r.value.separator == separator
    ensures Falsy(date) ==> r.Success? && r.value.date == now
  {
    var arg := if Falsy(date) then Moment(now) else date.value;
    match arg
    case Text(s) =>
      var split :- SplitYYYYMMDD(s);
      var dateString :- ConcatYYYYMMDD(split);
      var d :- DateFromYYYYMMDD(s);
      Success(DateString(d, dateString, separator))
    case Millis(_, local) =>
      Success(DateString(local, DateToYYYYMMDD(local), separator))
    case Moment(d) =>
      Success(DateString(d, DateToYYYYMMDD(d), separator))
  }

  /** What `new DateString(k, separator)` holds for a canonical key `k`
      (`CreateFromKey` proves it). */
  function FromKey(k: string, separator: string := ""): (ds: DateString)
    requires IsDateKey(k)
    ensures ds.GetValue() == k && ds.date == KeyDate(k)
  {
    DateString(KeyDate(k), k, separator)
  }

  /** What `new DateString(d)` holds for a `Date`, or for an instant whose
      local date is `d`. */
  function FromDate(d: CalendarDate): (ds: DateString)
    ensures forall now :: Create(Some(Moment(d)), "", now) == Success(ds)
  {
    DateString(d, DateToYYYYMMDD(d), "")
  }

  /** What `new DateString()` holds: today. */
  function Today(now: CalendarDate): DateString {
    FromDate(now)
  }

  /** A falsy argument is replaced by the current date. */
  lemma CreateFalsyIsNow(date: Option<DateArg>, separator: string, now: CalendarDate)
    requires Falsy(date)
    ensures Create(date, separator, now) == Create(Some(Moment(now)), separator, now)
    ensures Create(date, "", now) == Success(Today(now))
  {
  }

  /** A canonical key is read back unchanged: `getValue()` and `toString()`
      give the key and the date is the key's date, whatever the separator
      argument and the current date. */
  lemma CreateFromKey(k: string, separator: string, now: CalendarDate)
    requires IsDateKey(k)
    ensures Create(Some(Text(k)), separator, now) == Success(FromKey(k, separator))
    ensures FromKey(k, separator).ToString() == k
  {
    assert !Falsy(Some(Text(k)));
    SplitKey(k);
    SplitConcatRoundTrip(k);
  }

  /** The separator argument does not take part in parsing a string: two
      separators give the same date and value, or both fail alike. */
  lemma CreateTextIgnoresSeparator(s: string, sep1: string, sep2: string, now: CalendarDate)
    ensures Create(Some(Text(s)), sep1, now).Success? <==> Create(Some(Text(s)), sep2, now).Success?
    ensures Create(Some(Text(s)), sep1, now).Failure? ==>
              Create(Some(Text(s)), sep1, now).error == Create(Some(Text(s)), sep2, now).error
    ensures Create(Some(Text(s)), sep1, now).Success? ==>
              Create(Some(Text(s)), sep1, now).value.date == Create(Some(Text(s)), sep2, now).value.date
              && Create(Some(Text(s)), sep1, now).value.GetValue() == Create(Some(Text(s)), sep2, now).value.GetValue()
  {
  }

  /** An ISO `YYYY-MM-DD` string is rejected by the constructor, whatever
      separator is passed along (see `Lib.SplitIsoDateFails`). */
  lemma CreateFromIsoDateFails(separator: string, now: CalendarDate)
    ensures Create(Some(Text("2024-11-05")), separator, now).Failure?
  {
    SplitIsoDateFails();
    assert !Falsy(Some(Text("2024-11-05")));
  }

  /** From a date (or an instant) in range, `getValue()` is the date's key:
      an 8-digit string that splits back into the date's fields. */
  lemma CreateFromMoment(d: CalendarDate, separator: string, now: CalendarDate)
    requires 1000 <= d.year <= 9999 && 0 <= d.month <= 11 && 1 <= d.day <= 31
    ensures Create(Some(Moment(d)), separator, now).Success?
    ensures var ds := Create(Some(Moment(d)), separator, now).value;
            ds.GetValue() == DateToYYYYMMDD(d) && IsDateKey(ds.GetValue()) && KeyDate(ds.GetValue()) == d
  {
    ConcatSplitRoundTrip(d.year, d.month, d.day);
    DateToMatchesConcat(d, "");
    SplitKey(DateToYYYYMMDD(d));
  }

  /** `split()` of a key's DateString is the key's year, month and day, and
      concatenating it (month back to zero-based) gives the key. */
  lemma SplitOfKey(k: string, separator: string)
    requires IsDateKey(k)
    ensures var parts := FromKey(k, separator).Split();
            parts == [KeyYear(k) as int, KeyMonth(k) as int, KeyDay(k) as int]
            && ConcatYYYYMMDD([parts[0], parts[1] - 1, parts[2]]) == Success(k)
  {
    ConcatKeyFields(k);
  }

  /** An omitted or empty separator argument means the stored separator. */
  lemma WithSeparatorFallsBack(ds: DateString)
    ensures ds.GetValueWithSeparator(None) == ds.GetValueWithSeparator(Some(ds.separator))
    ensures ds.GetValueWithSeparator(Some("")) == ds.GetValueWithSeparator(Some(ds.separator))
  {
  }

  /** A key's DateString shows the key's three fields, each at least two
      digits, joined by the given separator or, when none or the empty one is
      given, by the stored one. */
  lemma WithSeparatorOfKey(k: string, stored: string, separator: Option<string>)
    requires IsDateKey(k)
    ensures var sep := if separator.None? || separator.value == "" then stored else separator.value;
            FromKey(k, stored).GetValueWithSeparator(separator) == k[0..4] + sep + k[4..6] + sep + k[6..8]
  {
    KeyFieldsPrint(k);
  }

  /** With the empty separator stored and none given, a key's DateString
      shows the key itself. */
  lemma WithoutSeparatorOfKey(k: string)
    requires IsDateKey(k)
    ensures FromKey(k, "").GetValueWithSeparator(None) == k
  {
    WithSeparatorOfKey(k, "", None);
    EightSplit(k);
  }

  /** Each field of a key, printed and padded to two digits, is the field. */
  lemma KeyFieldsPrint(k: string)
    requires IsDateKey(k)
    ensures PadStart2(IntToString(KeyYear(k))) == k[0..4]
    ensures PadStart2(IntToString(KeyMonth(k))) == k[4..6]
    ensures PadStart2(IntToString(KeyDay(k))) == k[6..8]
  {
    KeyYearPrints(k);
    PaddedFieldPrints(k[4..6]);
    PaddedFieldPrints(k[6..8]);
  }
}
