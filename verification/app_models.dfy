/** The value types of the app revision (`src/app/types`, `src/app/models`):
    its `DateString`, which writes the constructor's separator into the
    stored string and shows dates without padding, its cache key, and its
    state and probability records. The app's `DailyChange` has the shape of
    `Models.DailyChange`, and its `ElectoralMapOptions` the fields and
    defaults of `Models.MapOptions`, so both are shared. */
module AppModels {
  import opened Wrappers
  import opened Calendar
  import opened Lib
  import DateStrings
  import Models

  /** The app's `DateString`: fields set once by the constructor. */
  datatype DateString = DateString(date: CalendarDate, dateString: string, separator: string)
  {
    /** `getValue()`: the stored string, which holds the separator. */
    function GetValue(): string {
      dateString
    }

    /** `toString()`. */
    function ToString(): string {
      GetValue()
    }

    /** `split()`: year, one-based month and day of the stored date. */
    function Split(): (parts: seq<int>)
      ensures |parts| == 3
    {
      [date.year, date.month + 1, date.day]
    }

    /** `getValueWithSeparator(separator?)`: `split().join(separator)`, no
        padding; an omitted or empty argument falls back to the stored
        separator. */
    function GetValueWithSeparator(separator: Option<string>): (r: string)
      ensures IntToString(date.year) + DateStrings.SeparatorOr(separator, this.separator) <= r
    {
      var sep := DateStrings.SeparatorOr(separator, this.separator);
      var parts := Split();
      JoinFields(IntToString(parts[0]), IntToString(parts[1]), IntToString(parts[2]), sep)
    }
  }

  /** `new DateString(date, separator)`, with `now` the current local date:
      the separator is used when formatting the stored string. */
  function Create(date: Option<DateStrings.DateArg>, separator: string, now: CalendarDate): (r: Result<DateString, Error>)
    ensures r.Success? ==> r.value.separator == separator
    ensures DateStrings.Falsy(date) ==> r.Success? && r.value.date == now
  {
    var arg := if DateStrings.Falsy(date) then DateStrings.Moment(now) else date.value;
    match arg
    case Text(s) =>
      var split :- SplitYYYYMMDD(s);
      var dateString :- ConcatYYYYMMDD(split, separator);
      var d :- DateFromYYYYMMDD(s);
      Success(DateString(d, dateString, separator))
    case Millis(_, local) =>
      Success(DateString(local, DateToYYYYMMDD(local, separator), separator))
    case Moment(d) =>
      Success(DateString(d, DateToYYYYMMDD(d, separator), separator))
  }

  /** A falsy argument is replaced by the current date. */
  lemma CreateFalsyIsNow(date: Option<DateStrings.DateArg>, separator: string, now: CalendarDate)
    requires DateStrings.Falsy(date)
    ensures Create(date, separator, now) == Create(Some(DateStrings.Moment(now)), separator, now)
    ensures Create(date, separator, now).Success? && Create(date, separator, now).value.date == now
  {
  }

  /** From a canonical key, `getValue()` is the key's three fields joined
      by the constructor's separator, and the date is the key's date; with
      the empty separator the value is the key itself. */
  lemma CreateFromKey(k: string, separator: string, now: CalendarDate)
    requires IsDateKey(k)
    ensures Create(Some(DateStrings.Text(k)), separator, now)
            == Success(DateString(KeyDate(k), k[0..4] + separator + k[4..6] + separator + k[6..8], separator))
    ensures separator == "" ==> Create(Some(DateStrings.Text(k)), separator, now).value.GetValue() == k
  {
    assert !DateStrings.Falsy(Some(DateStrings.Text(k)));
    SplitKey(k);
    ConcatKeyFieldsWith(k, separator);
    EightSplit(k);
  }

  /** `split()` of the `DateString` built from a canonical key is the key's
      year, month and day digits read as numbers, whatever the separator. */
  lemma SplitOfKey(k: string, separator: string, now: CalendarDate)
    requires IsDateKey(k)
    ensures Create(Some(DateStrings.Text(k)), separator, now).Success?
    ensures Create(Some(DateStrings.Text(k)), separator, now).value.Split()
            == [DigitsValue(k[0..4]) as int, DigitsValue(k[4..6]) as int, DigitsValue(k[6..8]) as int]
  {
    CreateFromKey(k, separator, now);
  }

  /** Concatenating a key's fields with a separator puts the separator
      between the key's year, month and day digits. */
  lemma ConcatKeyFieldsWith(k: string, separator: string)
    requires IsDateKey(k)
    ensures ConcatYYYYMMDD([KeyYear(k) as int, KeyMonth(k) - 1, KeyDay(k) as int], separator)
            == Success(k[0..4] + separator + k[4..6] + separator + k[6..8])
  {
    var date := KeyDate(k);
    DateToMatchesConcat(date, separator);
    assert IntToString(date.year) == k[0..4] by {
      KeyYearPrints(k);
    }
    assert PadStart2(IntToString(date.month + 1)) == k[4..6] by {
      PaddedFieldPrints(k[4..6]);
    }
    assert PadStart2(IntToString(date.day)) == k[6..8] by {
      PaddedFieldPrints(k[6..8]);
    }
  }

  /** An omitted or empty separator argument means the stored separator. */
  lemma WithSeparatorFallsBack(ds: DateString)
    ensures ds.GetValueWithSeparator(None) == ds.GetValueWithSeparator(Some(ds.separator))
    ensures ds.GetValueWithSeparator(Some("")) == ds.GetValueWithSeparator(Some(ds.separator))
  {
  }

  /** The app shows dates without padding: beside the core `DateString`,
      which pads month and day to two digits, its text is one character
      shorter for a month before October and one more for a day before the
      tenth. */
  lemma WithSeparatorUnpadded(d: CalendarDate, stored: string, separator: Option<string>)
    requires 1000 <= d.year <= 9999 && 0 <= d.month <= 11 && 1 <= d.day <= 31
    ensures var app := DateString(d, "", stored).GetValueWithSeparator(separator);
            var core := DateStrings.DateString(d, "", stored).GetValueWithSeparator(separator);
            |app| == |core| - (if d.month + 1 < 10 then 1 else 0) - (if d.day < 10 then 1 else 0)
  {
    var sep := if separator.None? || separator.value == "" then stored else separator.value;
    var y, m, dd := IntToString(d.year), IntToString(d.month + 1), IntToString(d.day);
    NatToStringLength(d.year);
    NatToStringLength(d.month + 1);
    NatToStringLength(d.day);
    PaddingLength(y, m, dd, sep);
  }

  /** Padding a four-character year and a one- or two-character month and
      day adds one character per short field. */
  lemma PaddingLength(y: string, m: string, dd: string, sep: string)
    requires |y| == 4 && 1 <= |m| <= 2 && 1 <= |dd| <= 2
    ensures |JoinFields(y, m, dd, sep)|
            == |JoinFields(PadStart2(y), PadStart2(m), PadStart2(dd), sep)| - (if |m| == 1 then 1 else 0) - (if |dd| == 1 then 1 else 0)
  {
    var py, pm, pd := PadStart2(y), PadStart2(m), PadStart2(dd);
    var shortM, shortD := if |m| == 1 then 1 else 0, if |dd| == 1 then 1 else 0;
    assert |py| == |y| && |pm| == |m| + shortM && |pd| == |dd| + shortD;
    JoinFieldsLength(y, m, dd, sep);
    JoinFieldsLength(py, pm, pd, sep);
  }

  /** The length of three fields joined by a separator. */
  lemma JoinFieldsLength(a: string, b: string, c: string, sep: string)
    ensures |JoinFields(a, b, c, sep)| == |a| + |b| + |c| + 2 * |sep|
  {
  }

  /** The number of decimal digits of a number below 10000. */
  lemma {:induction false} NatToStringLength(n: nat)
    requires n < 10000
    ensures |NatToString(n)| == if n < 10 then 1 else if n < 100 then 2 else if n < 1000 then 3 else 4
  {
    if n >= 10 {
      NatToStringLength(n / 10);
    }
  }

  /** The date argument of `new StateDataKey(state, dateString)`. */
  datatype KeyArg = TextArg(text: string) | DateStringArg(dateString: DateString)

  /** The app's `StateDataKey`. */
  class StateDataKey {
    const state: string
    const dateString: string

    /** A string is stored as given; a `DateString` as its `getValue()`,
        separator included. */
    constructor(state: string, dateString: KeyArg)
      ensures this.state == state
      ensures this.dateString == match dateString
                                 case TextArg(s) => s
                                 case DateStringArg(d) => d.GetValue()
    {
      this.state := state;
      this.dateString := match dateString
                         case TextArg(s) => s
                         case DateStringArg(d) => d.GetValue();
    }
  }

  /** Two keys built from equal arguments hold equal fields and are two
      objects; a key from a key's `DateString` made with a separator holds
      the separated value, not the key. */
  method KeysForOneDate(state: string, k: string, separator: string, now: CalendarDate)
      returns (a: StateDataKey, b: StateDataKey)
    requires IsDateKey(k)
    ensures a.state == b.state == state && a.dateString == b.dateString
    ensures a.dateString == k[0..4] + separator + k[4..6] + separator + k[6..8]
    ensures a != b
  {
    CreateFromKey(k, separator, now);
    var d := Create(Some(DateStrings.Text(k)), separator, now).value;
    a := new StateDataKey(state, DateStringArg(d));
    b := new StateDataKey(state, DateStringArg(d));
  }

  /** `StateProbabilities`: chances in percent and their date. */
  datatype StateProbabilities = StateProbabilities(democrat: real, republican: real, asOf: DateString)
  {
    /** `getMargin()`. */
    function Margin(): (m: real)
      ensures m > 0.0 <==> democrat > republican
      ensures m == 0.0 <==> democrat == republican
      ensures m < 0.0 <==> democrat < republican
    {
      democrat - republican
    }
  }

  /** `new StateProbabilities(democrat = 0, republican = 100, asOf = new DateString())`,
      `today` standing for the last default. */
  function NewStateProbabilities(democrat: Option<real>, republican: Option<real>, asOf: Option<DateString>,
                                 today: DateString): (p: StateProbabilities)
    ensures p.democrat == (if democrat.Some? then democrat.value else 0.0)
    ensures p.republican == (if republican.Some? then republican.value else 100.0)
    ensures p.asOf == if asOf.Some? then asOf.value else today
  {
    StateProbabilities(democrat.GetOr(0.0), republican.GetOr(100.0), asOf.GetOr(today))
  }

  /** `ElectoralProbabilities`: the constructor takes both values and
      overwrites the field initialisers; nothing ties them to 100. */
  datatype ElectoralProbabilities = ElectoralProbabilities(democrat: real, republican: real)
  {
    /** `getMargin()`. */
    function Margin(): (m: real)
      ensures m > 0.0 <==> democrat > republican
      ensures m == 0.0 <==> democrat == republican
      ensures m < 0.0 <==> democrat < republican
    {
      democrat - republican
    }
  }

  /** The app's `StateData`. */
  datatype StateData = StateData(
    name: string,
    dateString: DateString,
    evs: int,
    change: Models.DailyChange,
    probabilities: StateProbabilities,
    rating: Models.StateRating,
    color: string)
  {
    /** `getWinningParty()`: decided by the probabilities alone. */
    function WinningParty(): (p: Models.Party)
      ensures p == Models.NoParty <==> probabilities.democrat == probabilities.republican
      ensures p == Models.Democrat <==> probabilities.democrat > probabilities.republican
      ensures p == Models.Republican <==> probabilities.democrat < probabilities.republican
    {
      var margin := probabilities.Margin();
      if margin == 0.0 then Models.NoParty
      else if margin > 0.0 then Models.Democrat
      else Models.Republican
    }
  }
}
