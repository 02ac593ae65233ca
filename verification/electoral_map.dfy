/** The app's `ElectoralMapService` (`src/app/services/electoral-map.service.ts`):
    the older, single-project revision of the map service. It reads a flat
    table (date key, then state, then the Democratic chance), answers every
    query about "now" unless given a date, rates with tilts and toss-ups
    always on, paints with fixed colours, and compares the latest snapshot
    only with the snapshot of the calendar day before it. */
module ElectoralMap {
  import opened Wrappers
  import opened Calendar
  import opened Lib
  import opened Json
  import opened Models
  import opened DateKeys
  import opened Rating
  import MapServices
  import Forecast
  import AppModels

  /** The loaded `stateProbabilitiesJson`: per date key, each state's
      Democratic chance in percent. */
  type FlatSeries = Json<Json<real>>

  /** A table as the loader leaves it: date keys, each listed once, and
      well-formed per-state objects. */
  predicate ValidFlat(s: FlatSeries) {
    s.Wf() && AllKeys(s.keys)
    && forall k | k in s.values :: s.values[k].Wf()
  }

  /** The snapshot under `k` lists `state`. */
  predicate Lists(s: FlatSeries, state: string, k: string) {
    k in s.values && state in s.values[k].values
  }

  /** The Democratic chance for `state` in the snapshot under `k`. */
  function ValueAt(s: FlatSeries, state: string, k: string): real
    requires Lists(s, state, k)
  {
    s.values[k].values[state]
  }

  /** `xs.indexOf(x)`: the first position of `x`, -1 when it is absent. */
  function IndexOf(xs: seq<string>, x: string): (i: int)
    ensures -1 <= i < |xs|
    ensures i == -1 <==> x !in xs
    ensures i >= 0 ==> xs[i] == x && forall j | 0 <= j < i :: xs[j] != x
  {
    if |xs| == 0 then -1
    else if xs[0] == x then 0
    else
      var i := IndexOf(xs[1..], x);
      if i == -1 then -1 else i + 1
  }

  /** `getAvailableDateStrings()`: the keys sorted by `Number(b) - Number(a)`,
      newest first. */
  function AvailableDateStrings(s: FlatSeries): (ks: seq<string>)
    requires ValidFlat(s)
    ensures AllKeys(ks) && Distinct(ks) && Descending(ks, Number)
    ensures |ks| == |s.keys| && multiset(ks) == multiset(s.keys)
    ensures forall k :: k in ks <==> k in s.keys
  {
    SortedKeys(s.keys);
    SortDescending(s.keys, Number)
  }

  /** The sorted keys are strictly newest first by date. */
  lemma AvailableDateStringsNewestFirst(s: FlatSeries)
    requires ValidFlat(s)
    ensures forall i, j | 0 <= i < j < |s.keys| ::
              Lt(KeyDate(AvailableDateStrings(s)[j]), KeyDate(AvailableDateStrings(s)[i]))
  {
    var ks := AvailableDateStrings(s);
    forall i, j | 0 <= i < j < |ks|
      ensures Lt(KeyDate(ks[j]), KeyDate(ks[i]))
    {
      Forecast.LaterNumberLaterDate(ks[i], ks[j]);
    }
  }

  /** `getAvailableStatesForDate(dateString)`: the states the snapshot lists,
      none when there is no snapshot for the key. */
  function AvailableStatesForDate(s: FlatSeries, dateString: string): (r: seq<string>)
    ensures dateString !in s.values ==> r == []
    ensures ValidFlat(s) ==> forall state :: state in r <==> Lists(s, state, dateString)
  {
    match s.Get(dateString)
    case None => []
    case Some(probs) => probs.keys
  }

  /** `isStateAvailableForDate(state, dateString)`. */
  function IsStateAvailableForDate(s: FlatSeries, state: string, dateString: string): (b: bool)
    ensures ValidFlat(s) ==> (b <==> Lists(s, state, dateString))
  {
    IndexOf(AvailableStatesForDate(s, dateString), state) >= 0
  }

  /** The key the newest-first scan stops at: it lists the state and its
      date is not after `bound`. */
  predicate Qualifies(s: FlatSeries, state: string, bound: CalendarDate, k: string) {
    IsDateKey(k) && Lists(s, state, k) && Le(KeyDate(k), bound)
  }

  /** What `getLatestDateStringForState(state, latest)` returns: the first
      qualifying key in newest-first order, `''` when none qualifies. */
  function LatestKey(s: FlatSeries, state: string, bound: CalendarDate): (r: string)
    requires ValidFlat(s)
    ensures r == "" || (r in s.keys && Qualifies(s, state, bound, r))
  {
    SortedKeys(s.keys);
    match Latest(s.keys, k => Qualifies(s, state, bound, k))
    case None => ""
    case Some(k) => k
  }

  /** The latest key is the newest qualifying one: `''` exactly when no key
      qualifies, and otherwise a key whose date is not before that of any
      qualifying key. */
  lemma LatestKeyIsNewest(s: FlatSeries, state: string, bound: CalendarDate)
    requires ValidFlat(s)
    ensures LatestKey(s, state, bound) == "" <==> forall k | k in s.keys :: !Qualifies(s, state, bound, k)
    ensures LatestKey(s, state, bound) != "" ==>
              forall k | k in s.keys && Qualifies(s, state, bound, k) ::
                Le(KeyDate(k), KeyDate(LatestKey(s, state, bound)))
  {
    LatestIsNewest(s.keys, k => Qualifies(s, state, bound, k));
  }

  /** A snapshot that lists the state is the latest one as of its own date. */
  lemma LatestKeyOfOwnDate(s: FlatSeries, state: string, k: string)
    requires ValidFlat(s) && k in s.keys && Lists(s, state, k)
    ensures LatestKey(s, state, KeyDate(k)) == k
  {
    var q := (j: string) => Qualifies(s, state, KeyDate(k), j);
    assert q(k);
    LatestIsUnique(s.keys, q, k);
  }

  /** None of the first `n` keys of `ks` qualifies: what the scan has
      established after `n` steps. */
  predicate NoneQualifies(s: FlatSeries, state: string, bound: CalendarDate, ks: seq<string>, n: nat)
    requires n <= |ks|
  {
    n == 0 || (NoneQualifies(s, state, bound, ks, n - 1) && !Qualifies(s, state, bound, ks[n - 1]))
  }

  /** After `n` steps no key before index `n` qualifies. */
  lemma {:induction false} NoneQualifiesBefore(s: FlatSeries, state: string, bound: CalendarDate, ks: seq<string>, n: nat)
    requires n <= |ks| && NoneQualifies(s, state, bound, ks, n)
    ensures forall j | 0 <= j < n :: !Qualifies(s, state, bound, ks[j])
  {
    if n > 0 {
      NoneQualifiesBefore(s, state, bound, ks, n - 1);
    }
  }

  /** One step of the scan: its test on the i-th sorted key is `Qualifies`. */
  lemma ScanStep(s: FlatSeries, state: string, bound: CalendarDate, i: int)
    requires ValidFlat(s) && 0 <= i < |s.keys|
    ensures (IsStateAvailableForDate(s, state, AvailableDateStrings(s)[i])
             && Le(KeyDate(AvailableDateStrings(s)[i]), bound))
            <==> Qualifies(s, state, bound, AvailableDateStrings(s)[i])
  {
  }

  /** The scan's first hit is the latest key. */
  lemma ScanFound(s: FlatSeries, state: string, bound: CalendarDate, i: int)
    requires ValidFlat(s) && 0 <= i < |s.keys|
    requires Qualifies(s, state, bound, AvailableDateStrings(s)[i])
    requires NoneQualifies(s, state, bound, AvailableDateStrings(s), i)
    ensures LatestKey(s, state, bound) == AvailableDateStrings(s)[i]
  {
    NoneQualifiesBefore(s, state, bound, AvailableDateStrings(s), i);
    FirstWhereAt(AvailableDateStrings(s), k => Qualifies(s, state, bound, k), i);
  }

  /** A key the scan passes over does not qualify, so the keys scanned so
      far still hold none. */
  lemma ScanMiss(s: FlatSeries, state: string, bound: CalendarDate, i: int)
    requires ValidFlat(s) && 0 <= i < |s.keys|
    requires NoneQualifies(s, state, bound, AvailableDateStrings(s), i)
    requires !(IsStateAvailableForDate(s, state, AvailableDateStrings(s)[i])
               && DateStringToDate(AvailableDateStrings(s)[i]).Success?
               && Le(DateStringToDate(AvailableDateStrings(s)[i]).value, bound))
    ensures NoneQualifies(s, state, bound, AvailableDateStrings(s), i + 1)
  {
    ScanStep(s, state, bound, i);
  }

  /** The scan's test on the i-th sorted key, as the loop writes it: a hit
      is the latest key, and a miss extends the keys that hold none. */
  lemma ScanAt(s: FlatSeries, state: string, bound: CalendarDate, i: int)
    requires ValidFlat(s) && 0 <= i < |s.keys|
    requires NoneQualifies(s, state, bound, AvailableDateStrings(s), i)
    ensures DateStringToDate(AvailableDateStrings(s)[i]).Success?
    ensures var k := AvailableDateStrings(s)[i];
            if IsStateAvailableForDate(s, state, k) && Le(DateStringToDate(k).value, bound)
            then LatestKey(s, state, bound) == k
            else NoneQualifies(s, state, bound, AvailableDateStrings(s), i + 1)
  {
    var k := AvailableDateStrings(s)[i];
    assert IsDateKey(k);
    if IsStateAvailableForDate(s, state, k) && Le(DateStringToDate(k).value, bound) {
      ScanStep(s, state, bound, i);
      ScanFound(s, state, bound, i);
    } else {
      ScanMiss(s, state, bound, i);
    }
  }

  /** A scan that finds nothing means there is no latest key. */
  lemma ScanExhausted(s: FlatSeries, state: string, bound: CalendarDate)
    requires ValidFlat(s)
    requires NoneQualifies(s, state, bound, AvailableDateStrings(s), |s.keys|)
    ensures LatestKey(s, state, bound) == ""
  {
    var q := k => Qualifies(s, state, bound, k);
    var ks := AvailableDateStrings(s);
    NoneQualifiesBefore(s, state, bound, ks, |ks|);
    assert forall j | 0 <= j < |ks| :: !q(ks[j]);
    assert FirstWhere(ks, q).None?;
  }

  /** `dateFromYYYYMMDD` of a key is the key's date. */
  lemma ParsesToKeyDate(k: string)
    requires IsDateKey(k)
    ensures DateFromYYYYMMDD(k) == Success(KeyDate(k))
  {
    SplitKey(k);
  }

  /** `dateStringToDate` stands for `dateFromYYYYMMDD`, which turns a key
      into its date; src/lib.ts does not define `dateStringToDate`. */
  function DateStringToDate(dateString: string): (r: Result<CalendarDate, Error>)
    ensures IsDateKey(dateString) ==> r == Success(KeyDate(dateString))
  {
    if IsDateKey(dateString) then
      ParsesToKeyDate(dateString);
      DateFromYYYYMMDD(dateString)
    else
      DateFromYYYYMMDD(dateString)
  }

  /** `getProbabilities(state, date)`: the latest snapshot's chance `d` on
      or before the date, 0 when there is none or it lacks the state, and
      `100 - d` for the Republican. */
  function ProbabilitiesFor(s: FlatSeries, state: string, date: CalendarDate): (p: AppModels.ElectoralProbabilities)
    requires ValidFlat(s)
    ensures p.democrat + p.republican == 100.0
    ensures LatestKey(s, state, date) == "" ==> p.democrat == 0.0
    ensures LatestKey(s, state, date) != "" ==> p.democrat == ValueAt(s, state, LatestKey(s, state, date))
  {
    var dateKey := LatestKey(s, state, date);
    var d := if dateKey == "" then 0.0 else s.values[dateKey].Get(state).GetOr(0.0);
    AppModels.ElectoralProbabilities(d, 100.0 - d)
  }

  /** `getStateRating(state)`: the ladder with tilts and toss-ups on,
      applied to the margin `2d - 100` of the latest snapshot's chance `d`
      as of `now`, or to `-100` when there is none. */
  function RatingFor(s: FlatSeries, state: string, now: CalendarDate, ratingMargins: RatingMargins): (r: StateRating)
    requires ValidFlat(s)
    ensures LatestKey(s, state, now) == "" ==> r == Classify(-100.0, ratingMargins, true, true)
    ensures LatestKey(s, state, now) != "" ==>
              r == Classify(2.0 * ValueAt(s, state, LatestKey(s, state, now)) - 100.0, ratingMargins, true, true)
  {
    var margin := ProbabilitiesFor(s, state, now).Margin();
    Classify(margin, ratingMargins, true, true)
  }

  /** The colours `getColor` returns, one per rating. */
  const HexColors := MapColors(
    "#0033ff", "#5274fa", "#9cafff", "#d2dafc",
    "#f5020f", "#fc7980", "#fcaeb2", "#ffe3e8",
    "#ffd857")

  /** The nine colours differ. */
  lemma HexColorsDistinct()
    ensures MapServices.DistinctColors(HexColors)
  {
  }

  /** `getColor(state)`: the colour of the state's rating as of `now`. */
  function ColorFor(s: FlatSeries, state: string, now: CalendarDate, ratingMargins: RatingMargins): (c: string)
    requires ValidFlat(s)
    ensures c in MapServices.Palette(HexColors)
  {
    MapServices.ColorAtRank(RatingFor(s, state, now, ratingMargins), HexColors);
    MapServices.ColorOf(RatingFor(s, state, now, ratingMargins), HexColors)
  }

  /** The colour tells the rating: two states painted alike are rated alike. */
  lemma ColorTellsRating(s: FlatSeries, a: string, b: string, now: CalendarDate, ratingMargins: RatingMargins)
    requires ValidFlat(s)
    requires ColorFor(s, a, now, ratingMargins) == ColorFor(s, b, now, ratingMargins)
    ensures RatingFor(s, a, now, ratingMargins) == RatingFor(s, b, now, ratingMargins)
  {
    HexColorsDistinct();
    MapServices.ColorOfInjective(RatingFor(s, a, now, ratingMargins), RatingFor(s, b, now, ratingMargins), HexColors);
  }

  /** The change record for a difference in margin points: `'No Change'`
      at zero, otherwise the map service's record. */
  function AppChangeOf(diff: real): (c: DailyChange)
    ensures c == if diff == 0.0 then DailyChange(NoChangeText, None) else Forecast.ChangeOf(diff)
    ensures c.advantage == Forecast.ChangeOf(diff).advantage
  {
    var text := if diff == 0.0 then NoChangeText else if diff > 0.0 then DemGain(diff) else RepGain(-diff);
    var advantage := if diff == 0.0 then None else if diff > 0.0 then Some(Democrat) else Some(Republican);
    DailyChange(text, advantage)
  }

  /** What `getDailyChange(state)` returns: the latest snapshot `k` as of
      `now` is compared with the snapshot of the calendar day before `k`, by
      margin, and the margins differ by twice the difference in chances.
      When that day has no snapshot listing the state (even if an older one
      does), or there is no latest snapshot, the change is empty. */
  function ChangeFor(s: FlatSeries, state: string, now: CalendarDate): (c: DailyChange)
    requires ValidFlat(s)
    ensures LatestKey(s, state, now) == "" ==> c == EmptyChange
    ensures c.advantage.Some? ==> c.text.DemGain? || c.text.RepGain?
  {
    var k := LatestKey(s, state, now);
    if k == "" then EmptyChange
    else
      var p := DateToYYYYMMDD(Predecessor(KeyDate(k)));
      if Lists(s, state, p) then AppChangeOf(2.0 * (ValueAt(s, state, k) - ValueAt(s, state, p)))
      else EmptyChange
  }

  /** `ChangeFor` in the terms `getDailyChange` computes it: the margins of
      the probabilities as of the latest key's date and as of the previous
      day's key's date. */
  lemma ChangeForMargins(s: FlatSeries, state: string, now: CalendarDate)
    requires ValidFlat(s) && LatestKey(s, state, now) != ""
    ensures var k := LatestKey(s, state, now);
            var p := DateToYYYYMMDD(Predecessor(KeyDate(k)));
            ChangeFor(s, state, now)
            == if Lists(s, state, p)
               then AppChangeOf(ProbabilitiesFor(s, state, KeyDate(k)).Margin() - ProbabilitiesFor(s, state, KeyDate(p)).Margin())
               else EmptyChange
  {
    var k := LatestKey(s, state, now);
    var p := DateToYYYYMMDD(Predecessor(KeyDate(k)));
    if Lists(s, state, p) {
      MarginsOfOwnDates(s, state, k, p);
    }
  }

  /** Between two snapshots that list the state, read as of their own
      dates, the margins differ by twice the difference in chances. */
  lemma MarginsOfOwnDates(s: FlatSeries, state: string, k: string, p: string)
    requires ValidFlat(s) && k in s.keys && Lists(s, state, k) && p in s.keys && Lists(s, state, p)
    ensures ProbabilitiesFor(s, state, KeyDate(k)).Margin() - ProbabilitiesFor(s, state, KeyDate(p)).Margin()
            == 2.0 * (ValueAt(s, state, k) - ValueAt(s, state, p))
  {
    LatestKeyOfOwnDate(s, state, k);
    LatestKeyOfOwnDate(s, state, p);
  }

  /** The object `getStateData` returns. */
  datatype ElectoralStateData = ElectoralStateData(
    name: string,
    probabilities: AppModels.ElectoralProbabilities,
    rating: StateRating,
    color: string,
    date: CalendarDate,
    change: DailyChange,
    evs: int)

  /** `ElectoralMapService` over loaded data: the loaders fill the two
      tables once; here they are given to the constructor, with the rating
      margins of the configuration. */
  class ElectoralMapService {
    const evsJson: Json<int>
    const stateProbabilitiesJson: FlatSeries
    const ratingMargins: RatingMargins

    constructor(evsJson: Json<int>, stateProbabilitiesJson: FlatSeries, ratingMargins: RatingMargins)
      ensures this.evsJson == evsJson && this.stateProbabilitiesJson == stateProbabilitiesJson
      ensures this.ratingMargins == ratingMargins
    {
      this.evsJson := evsJson;
      this.stateProbabilitiesJson := stateProbabilitiesJson;
      this.ratingMargins := ratingMargins;
    }

    /** `getLatestDateStringForState(state, latest)`: scans the sorted keys
        and returns the first that lists the state and whose date is not
        after `latest`. */
    method GetLatestDateStringForState(state: string, latest: CalendarDate) returns (r: string)
      requires ValidFlat(stateProbabilitiesJson)
      ensures r == LatestKey(stateProbabilitiesJson, state, latest)
    {
      var dateStrings := AvailableDateStrings(stateProbabilitiesJson);
      var i := 0;
      while i < |dateStrings|
        invariant 0 <= i <= |dateStrings|
        invariant NoneQualifies(stateProbabilitiesJson, state, latest, dateStrings, i)
      {
        var dateString := dateStrings[i];
        ScanAt(stateProbabilitiesJson, state, latest, i);
        if IsStateAvailableForDate(stateProbabilitiesJson, state, dateString)
            && Le(DateStringToDate(dateString).value, latest) {
          return dateString;
        }
        i := i + 1;
      }
      ScanExhausted(stateProbabilitiesJson, state, latest);
      return "";
    }

    /** `getProbabilities(state, date)`. */
    method GetProbabilities(state: string, date: CalendarDate) returns (p: AppModels.ElectoralProbabilities)
      requires ValidFlat(stateProbabilitiesJson)
      ensures p == ProbabilitiesFor(stateProbabilitiesJson, state, date)
    {
      var dateKey := GetLatestDateStringForState(state, date);
      var d := if dateKey == "" then 0.0 else stateProbabilitiesJson.values[dateKey].Get(state).GetOr(0.0);
      var r := 100.0 - d;
      return AppModels.ElectoralProbabilities(d, r);
    }

    /** `getStateRating(state)`, as of `now`. */
    method GetStateRating(state: string, now: CalendarDate) returns (r: StateRating)
      requires ValidFlat(stateProbabilitiesJson)
      ensures r == RatingFor(stateProbabilitiesJson, state, now, ratingMargins)
    {
      var probabilities := GetProbabilities(state, now);
      var margin := probabilities.Margin();
      r := Classify(margin, ratingMargins, true, true);
    }

    /** `getColor(state)`, as of `now`. */
    method GetColor(state: string, now: CalendarDate) returns (c: string)
      requires ValidFlat(stateProbabilitiesJson)
      ensures c == ColorFor(stateProbabilitiesJson, state, now, ratingMargins)
    {
      var classification := GetStateRating(state, now);
      c := MapServices.ColorOf(classification, HexColors);
    }

    /** `getDailyChange(state)`, as of `now`. */
    method GetDailyChange(state: string, now: CalendarDate) returns (c: DailyChange)
      requires ValidFlat(stateProbabilitiesJson)
      ensures c == ChangeFor(stateProbabilitiesJson, state, now)
    {
      var latestDateString := GetLatestDateStringForState(state, now);
      if latestDateString == "" {
        return EmptyChange;
      }
      var latestDate := DateStringToDate(latestDateString).value;
      ChangeForMargins(stateProbabilitiesJson, state, now);
      var latestProbs := GetProbabilities(state, latestDate);
      var dateStrings := AvailableDateStrings(stateProbabilitiesJson);
      var previousDayDateString := DateToYYYYMMDD(Predecessor(latestDate));
      if IsStateAvailableForDate(stateProbabilitiesJson, state, previousDayDateString) {
        assert previousDayDateString in dateStrings;
        var prevDateString := dateStrings[IndexOf(dateStrings, previousDayDateString)];
        var prevDate := DateStringToDate(prevDateString).value;
        var prevProbs := GetProbabilities(state, prevDate);
        var diff := latestProbs.Margin() - prevProbs.Margin();
        return AppChangeOf(diff);
      } else {
        return EmptyChange;
      }
    }

    /** `getStateData(state, date)`: the probabilities as of `date`; rating,
        colour and change as of `now`, whatever the date. With the date left
        at its default, `now`, the rating is the ladder of the probabilities'
        margin. */
    method GetStateData(state: string, date: CalendarDate, now: CalendarDate) returns (data: ElectoralStateData)
      requires ValidFlat(stateProbabilitiesJson)
      ensures data.name == state && data.date == date
      ensures data.probabilities == ProbabilitiesFor(stateProbabilitiesJson, state, date)
      ensures data.rating == RatingFor(stateProbabilitiesJson, state, now, ratingMargins)
      ensures data.color == ColorFor(stateProbabilitiesJson, state, now, ratingMargins)
      ensures data.change == ChangeFor(stateProbabilitiesJson, state, now)
      ensures data.evs == Forecast.ElectoralVotesOf(evsJson, state)
      ensures date == now ==> data.rating == Classify(data.probabilities.Margin(), ratingMargins, true, true)
    {
      var probabilities := GetProbabilities(state, date);
      var rating := GetStateRating(state, now);
      var color := GetColor(state, now);
      var change := GetDailyChange(state, now);
      var evs := Forecast.ElectoralVotesOf(evsJson, state);
      data := ElectoralStateData(state, probabilities, rating, color, date, change, evs);
    }
  }
}
