/** The forecast queries that the map service (`projects/map/src/lib/map.service.ts`)
    and the state service (`projects/state/src/lib/state.service.ts`) both
    implement, line for line alike: over a series of snapshots keyed by
    `YYYYMMDD` date, find the newest snapshot on or before a date that lists
    a state, read its probabilities, and compare it with the snapshot before. */
module Forecast {
  import opened Wrappers
  import opened Calendar
  import opened Lib
  import opened DateStrings
  import opened Json
  import opened Models
  import opened DateKeys

  /** The loaded `probabilities` field: one snapshot per date key. */
  type Series = Json<Probabilities>

  /** A series as the loader leaves it: date keys, each listed once, and
      well-formed per-state objects. */
  predicate ValidSeries(s: Series) {
    s.Wf() && AllKeys(s.keys)
    && forall k | k in s.values :: s.values[k].states.Some? ==> s.values[k].states.value.Wf()
  }

  /** The snapshot stored under `k` lists `state`. */
  predicate HasState(s: Series, state: string, k: string) {
    k in s.values && s.values[k].states.Some? && state in s.values[k].states.value.values
  }

  /** The Democratic probability for `state` in the snapshot under `k`. */
  function StateValue(s: Series, state: string, k: string): real
    requires HasState(s, state, k)
  {
    s.values[k].states.value.values[state]
  }

  /** The keys, newest first. */
  function KeysNewestFirst(s: Series): (ks: seq<string>)
    requires ValidSeries(s)
    ensures AllKeys(ks) && |ks| == |s.keys|
  {
    SortedKeys(s.keys);
    assert |multiset(SortDescending(s.keys, Number))| == |multiset(s.keys)|;
    SortDescending(s.keys, Number)
  }

  /** The sorted keys are the snapshot keys, each once, in descending
      numeric order. */
  lemma KeysNewestFirstSorted(s: Series)
    requires ValidSeries(s)
    ensures var ks := KeysNewestFirst(s);
            && Distinct(ks) && Descending(ks, Number)
            && multiset(ks) == multiset(s.keys)
            && forall k :: k in ks <==> k in s.keys
  {
    SortedKeys(s.keys);
  }

  /** `getAvailableDateStrings()` / `getDateStrings()`: each sorted key
      wrapped by `new DateString(key)`. */
  function AvailableDateStrings(s: Series): (r: seq<DateString>)
    requires ValidSeries(s)
    ensures |r| == |s.keys|
    ensures forall i | 0 <= i < |r| :: r[i] == FromKey(KeysNewestFirst(s)[i])
  {
    var ks := KeysNewestFirst(s);
    seq(|ks|, i requires 0 <= i < |ks| => FromKey(ks[i]))
  }

  /** The values of a list of date strings. */
  function Values(ds: seq<DateString>): (r: seq<string>)
    ensures |r| == |ds| && forall i | 0 <= i < |ds| :: r[i] == ds[i].GetValue()
  {
    seq(|ds|, i requires 0 <= i < |ds| => ds[i].GetValue())
  }

  /** The listed dates are the snapshot keys, each exactly once, strictly
      newest first. */
  lemma AvailableDateStringsNewestFirst(s: Series)
    requires ValidSeries(s)
    ensures var r := AvailableDateStrings(s);
            && multiset(Values(r)) == multiset(s.keys)
            && Distinct(Values(r))
            && forall i, j | 0 <= i < j < |r| :: Lt(r[j].date, r[i].date)
  {
    var r := AvailableDateStrings(s);
    var ks := KeysNewestFirst(s);
    KeysNewestFirstSorted(s);
    assert Values(r) == ks by {
      ValuesOfKeys(r, ks);
    }
    assert forall i, j | 0 <= i < j < |r| :: Lt(r[j].date, r[i].date) by {
      DescendingKeysAreNewestFirst(ks);
      DatesOfKeys(r, ks);
    }
  }

  lemma ValuesOfKeys(r: seq<DateString>, ks: seq<string>)
    requires AllKeys(ks) && |r| == |ks| && forall i | 0 <= i < |r| :: r[i] == FromKey(ks[i])
    ensures Values(r) == ks
  {
  }

  lemma DatesOfKeys(r: seq<DateString>, ks: seq<string>)
    requires AllKeys(ks) && |r| == |ks| && forall i | 0 <= i < |r| :: r[i] == FromKey(ks[i])
    ensures forall i | 0 <= i < |r| :: r[i].date == KeyDate(ks[i])
  {
  }

  lemma DescendingKeysAreNewestFirst(ks: seq<string>)
    requires AllKeys(ks) && Descending(ks, Number)
    ensures forall i, j | 0 <= i < j < |ks| :: Lt(KeyDate(ks[j]), KeyDate(ks[i]))
  {
    forall i, j | 0 <= i < j < |ks|
      ensures Lt(KeyDate(ks[j]), KeyDate(ks[i]))
    {
      LaterNumberLaterDate(ks[i], ks[j]);
    }
  }

  lemma LaterNumberLaterDate(a: string, b: string)
    requires IsDateKey(a) && IsDateKey(b) && Number(a) > Number(b)
    ensures Lt(KeyDate(b), KeyDate(a))
  {
    KeyOrderIsDateOrder(a, b);
    LeTotal(KeyDate(a), KeyDate(b));
  }

  /** `getProbabilities(date)`: the snapshot stored under the date's value,
      `undefined` when there is none. */
  function GetProbabilities(s: Series, date: DateString): (p: Option<Probabilities>)
    ensures p.Some? <==> date.GetValue() in s.values
    ensures p.Some? ==> p.value == s.values[date.GetValue()]
  {
    s.Get(date.ToString())
  }

  /** `getAvailableStatesForDate(date)` / `getForDate(date)`: the states the
      date's snapshot lists, none when it has no `states`; reading the
      `states` of a missing snapshot throws. */
  function AvailableStatesForDate(s: Series, date: DateString): (r: Result<seq<string>, Error>)
    ensures r.Failure? <==> date.GetValue() !in s.values
    ensures r.Failure? ==> r.error == UndefinedProperty
    ensures r.Success? && ValidSeries(s) ==>
              forall state :: state in r.value <==> HasState(s, state, date.GetValue())
  {
    match GetProbabilities(s, date)
    case None => Failure(UndefinedProperty)
    case Some(p) => Success(if p.states.Some? then p.states.value.keys else [])
  }

  /** `isStateAvailableForDate(state, date)` / `hasDataForDate(state, date)`:
      whether the date's snapshot lists the state. */
  function IsStateAvailableForDate(s: Series, state: string, date: DateString): (r: Result<bool, Error>)
    ensures r.Failure? <==> date.GetValue() !in s.values
    ensures r.Success? && ValidSeries(s) ==> (r.value <==> HasState(s, state, date.GetValue()))
  {
    var states :- AvailableStatesForDate(s, date);
    Success(state in states)
  }

  /** The key `getLatestDateStringForState` looks for: it lists the state and
      its date is not after `bound`. */
  predicate Qualifies(s: Series, state: string, bound: CalendarDate, k: string) {
    IsDateKey(k) && HasState(s, state, k) && Le(KeyDate(k), bound)
  }

  /** The first qualifying key in newest-first order. */
  function LatestFor(s: Series, state: string, bound: CalendarDate): (r: Option<string>)
    requires ValidSeries(s)
    ensures r.Some? ==> r.value in s.keys && Qualifies(s, state, bound, r.value)
  {
    SortedKeys(s.keys);
    Latest(s.keys, k => Qualifies(s, state, bound, k))
  }

  /** `getLatestDateStringForState(state, latest)` / `getLatestDateString`:
      the latest key's `DateString`, `undefined` when there is none. */
  function LatestDateString(s: Series, state: string, bound: CalendarDate): (r: Option<DateString>)
    requires ValidSeries(s)
    ensures r.None? <==> LatestFor(s, state, bound).None?
    ensures r.Some? ==> r.value == FromKey(LatestFor(s, state, bound).value)
  {
    match LatestFor(s, state, bound)
    case None => None
    case Some(k) => Some(FromKey(k))
  }

  /** The newest snapshot on or before `bound` that lists the state: none
      exactly when no snapshot qualifies, otherwise one that qualifies and
      whose date is not before that of any other that does. */
  lemma LatestForIsNewest(s: Series, state: string, bound: CalendarDate)
    requires ValidSeries(s)
    ensures LatestFor(s, state, bound).None? <==> forall k | k in s.keys :: !Qualifies(s, state, bound, k)
    ensures LatestFor(s, state, bound).Some? ==>
              forall k | k in s.keys && Qualifies(s, state, bound, k) ::
                Le(KeyDate(k), KeyDate(LatestFor(s, state, bound).value))
  {
    LatestIsNewest(s.keys, k => Qualifies(s, state, bound, k));
  }

  /** None of the first `n` keys of `ks` qualifies: what the scan has
      established after `n` steps. */
  predicate NoneQualifies(s: Series, state: string, bound: CalendarDate, ks: seq<string>, n: nat)
    requires n <= |ks|
  {
    n == 0 || (NoneQualifies(s, state, bound, ks, n - 1) && !Qualifies(s, state, bound, ks[n - 1]))
  }

  /** After `n` steps no key before index `n` qualifies. */
  lemma {:induction false} NoneQualifiesBefore(s: Series, state: string, bound: CalendarDate, ks: seq<string>, n: nat)
    requires n <= |ks| && NoneQualifies(s, state, bound, ks, n)
    ensures forall j | 0 <= j < n :: !Qualifies(s, state, bound, ks[j])
  {
    if n > 0 {
      NoneQualifiesBefore(s, state, bound, ks, n - 1);
    }
  }

  /** One step of the newest-first scan of `getLatestDateStringForState`:
      the scan's test on the i-th listed date is `Qualifies` of the i-th
      sorted key. */
  lemma ScanStep(s: Series, state: string, bound: CalendarDate, i: int)
    requires ValidSeries(s) && 0 <= i < |s.keys|
    ensures (IsStateAvailableForDate(s, state, AvailableDateStrings(s)[i]) == Success(true)
             && Le(AvailableDateStrings(s)[i].date, bound))
            <==> Qualifies(s, state, bound, KeysNewestFirst(s)[i])
  {
  }

  /** The scan's first hit is the latest snapshot. */
  lemma ScanFound(s: Series, state: string, bound: CalendarDate, i: int)
    requires ValidSeries(s) && 0 <= i < |s.keys|
    requires Qualifies(s, state, bound, KeysNewestFirst(s)[i])
    requires NoneQualifies(s, state, bound, KeysNewestFirst(s), i)
    ensures LatestDateString(s, state, bound) == Some(AvailableDateStrings(s)[i])
  {
    NoneQualifiesBefore(s, state, bound, KeysNewestFirst(s), i);
    FirstWhereAt(KeysNewestFirst(s), k => Qualifies(s, state, bound, k), i);
  }

  /** A date the scan passes over is not a qualifying one, so the keys
      scanned so far still hold none. */
  lemma ScanMiss(s: Series, state: string, bound: CalendarDate, i: int)
    requires ValidSeries(s) && 0 <= i < |s.keys|
    requires NoneQualifies(s, state, bound, KeysNewestFirst(s), i)
    requires !(IsStateAvailableForDate(s, state, AvailableDateStrings(s)[i]) == Success(true)
               && Le(AvailableDateStrings(s)[i].date, bound))
    ensures NoneQualifies(s, state, bound, KeysNewestFirst(s), i + 1)
  {
    ScanStep(s, state, bound, i);
  }

  /** The scan's test on the i-th date, as the loop writes it: a hit is the
      latest snapshot, and a miss extends the keys that hold none. */
  lemma ScanAt(s: Series, state: string, bound: CalendarDate, i: int)
    requires ValidSeries(s) && 0 <= i < |s.keys|
    requires NoneQualifies(s, state, bound, KeysNewestFirst(s), i)
    ensures var d := AvailableDateStrings(s)[i];
            if IsStateAvailableForDate(s, state, d) == Success(true) && Le(d.date, bound)
            then LatestDateString(s, state, bound) == Some(d)
            else NoneQualifies(s, state, bound, KeysNewestFirst(s), i + 1)
  {
    var d := AvailableDateStrings(s)[i];
    if IsStateAvailableForDate(s, state, d) == Success(true) && Le(d.date, bound) {
      ScanStep(s, state, bound, i);
      ScanFound(s, state, bound, i);
    } else {
      ScanMiss(s, state, bound, i);
    }
  }

  /** A scan that finds nothing means there is no latest snapshot. */
  lemma ScanExhausted(s: Series, state: string, bound: CalendarDate)
    requires ValidSeries(s)
    requires NoneQualifies(s, state, bound, KeysNewestFirst(s), |s.keys|)
    ensures LatestDateString(s, state, bound) == None
  {
    var q := k => Qualifies(s, state, bound, k);
    var ks := KeysNewestFirst(s);
    NoneQualifiesBefore(s, state, bound, ks, |ks|);
    assert forall j | 0 <= j < |ks| :: !q(ks[j]);
    assert FirstWhere(ks, q).None?;
  }

  /** A snapshot that lists the state is its own latest snapshot: looking it
      up again by its date finds it. */
  lemma LatestOfOwnDate(s: Series, state: string, k: string)
    requires ValidSeries(s) && k in s.keys && HasState(s, state, k)
    ensures LatestFor(s, state, KeyDate(k)) == Some(k)
  {
    var q := (j: string) => Qualifies(s, state, KeyDate(k), j);
    assert q(k);
    LatestIsUnique(s.keys, q, k);
  }

  /** `getStateProbabilities(state, date)` / `getProbability(state, date)`.
      Without a snapshot the result is `new StateProbability(0, 100, undefined)`,
      whose `asOf` takes the constructor's default `new DateString()`, here
      `today`. */
  function ProbabilityAt(s: Series, state: string, date: DateString, today: DateString): (p: StateProbability)
    requires ValidSeries(s)
    ensures p.democrat + p.republican == 100.0
    ensures LatestFor(s, state, date.date).None? ==> p == StateProbability(0.0, 100.0, today)
    ensures LatestFor(s, state, date.date).Some? ==>
              var k := LatestFor(s, state, date.date).value;
              p.democrat == StateValue(s, state, k) && p.asOf == FromKey(k)
  {
    match LatestDateString(s, state, date.date)
    case None => NewStateProbability(Some(0.0), Some(100.0), None, today)
    case Some(latestDate) =>
      var d := GetProbabilities(s, latestDate).value.states.value.Get(state).GetOr(0.0);
      NewStateProbability(Some(d), Some(100.0 - d), Some(latestDate), today)
  }

  /** The margin at a date is `2d - 100` for the Democratic value `d` of the
      latest snapshot, and `-100` when there is none. */
  lemma MarginAt(s: Series, state: string, date: DateString, today: DateString)
    requires ValidSeries(s)
    ensures LatestFor(s, state, date.date).None? ==> ProbabilityAt(s, state, date, today).Margin() == -100.0
    ensures LatestFor(s, state, date.date).Some? ==>
              ProbabilityAt(s, state, date, today).Margin()
              == 2.0 * StateValue(s, state, LatestFor(s, state, date.date).value) - 100.0
  {
  }

  /** The change text and advantage for a difference in Democratic points. */
  function ChangeOf(diff: real): (c: DailyChange)
    ensures c.advantage == None <==> diff == 0.0
    ensures c.advantage == Some(Democrat) <==> diff > 0.0
    ensures c.advantage == Some(Republican) <==> diff < 0.0
    ensures c.text.Blank? == false && c.text.NoChangeText? == false
    ensures c.text.NoneText? <==> diff == 0.0
    ensures (c.text.DemGain? || c.text.RepGain?) ==> c.text.amount > 0.0
    ensures c.text.DemGain? ==> c.text.amount == diff
    ensures c.text.RepGain? ==> c.text.amount == -diff
  {
    if diff == 0.0 then DailyChange(NoneText, None)
    else if diff > 0.0 then DailyChange(DemGain(diff), Some(Democrat))
    else DailyChange(RepGain(-diff), Some(Republican))
  }

  /** `getDailyChange(state, date)`: the latest snapshot `k` on or before
      the date is compared with the latest snapshot on or before the day
      before `k`, by Democratic probability; with no snapshot, or none
      before, the change is empty. */
  function DailyChangeAt(s: Series, state: string, date: DateString, today: DateString): (c: DailyChange)
    requires ValidSeries(s)
    ensures LatestFor(s, state, date.date).None? ==> c == EmptyChange
    ensures LatestFor(s, state, date.date).Some? ==> c == ChangeAfter(s, state, LatestFor(s, state, date.date).value)
  {
    match LatestDateString(s, state, date.date)
    case None => EmptyChange
    case Some(latestDate) =>
      ChangeSinceKey(s, state, today, LatestFor(s, state, date.date).value);
      ChangeSince(s, state, latestDate, today)
  }

  /** The rest of `getDailyChange` once the latest snapshot is found. */
  function ChangeSince(s: Series, state: string, latestDate: DateString, today: DateString): DailyChange
    requires ValidSeries(s)
  {
    // `new DateString(latestDate.asDate().getTime() - 24 * 60 * 60 * 1000)`,
    // of which only the date is read.
    var previousDay := Predecessor(latestDate.date);
    CompareWith(s, state, latestDate, LatestDateString(s, state, previousDay), today)
  }

  /** The comparison of `getDailyChange` once both snapshots are looked up. */
  function CompareWith(s: Series, state: string, latestDate: DateString, latestPrevious: Option<DateString>, today: DateString): DailyChange
    requires ValidSeries(s)
  {
    if latestPrevious.Some? && IsStateAvailableForDate(s, state, latestPrevious.value) == Success(true) then
      var latestProbability := ProbabilityAt(s, state, latestDate, today);
      var prevProbability := ProbabilityAt(s, state, latestPrevious.value, today);
      ChangeOf(latestProbability.democrat - prevProbability.democrat)
    else
      EmptyChange
  }

  /** The test `isStateAvailableForDate(state, latestPrevious)` of
      `getDailyChange` always passes: the key was found because it lists the
      state. */
  lemma AvailabilityCheckHolds(s: Series, state: string, bound: CalendarDate)
    requires ValidSeries(s) && LatestDateString(s, state, bound).Some?
    ensures IsStateAvailableForDate(s, state, LatestDateString(s, state, bound).value) == Success(true)
  {
  }

  /** The change recorded by snapshot `k`: against the latest snapshot on
      or before the day before `k`, empty when there is none. */
  function ChangeAfter(s: Series, state: string, k: string): (c: DailyChange)
    requires ValidSeries(s) && k in s.keys && HasState(s, state, k)
    ensures c.text.Blank? <==> LatestFor(s, state, Predecessor(KeyDate(k))).None?
  {
    var prev := LatestFor(s, state, Predecessor(KeyDate(k)));
    if prev.None? then EmptyChange
    else ChangeOf(StateValue(s, state, k) - StateValue(s, state, prev.value))
  }

  lemma ChangeAfterPrevious(s: Series, state: string, k: string, k2: string)
    requires ValidSeries(s) && k in s.keys && HasState(s, state, k)
    requires LatestFor(s, state, Predecessor(KeyDate(k))) == Some(k2)
    ensures ChangeAfter(s, state, k) == ChangeOf(StateValue(s, state, k) - StateValue(s, state, k2))
  {
  }

  lemma ChangeSinceKey(s: Series, state: string, today: DateString, k: string)
    requires ValidSeries(s) && k in s.keys && HasState(s, state, k)
    ensures ChangeSince(s, state, FromKey(k), today) == ChangeAfter(s, state, k)
  {
    var prev := LatestFor(s, state, Predecessor(KeyDate(k)));
    if prev.Some? {
      ChangeSincePrevious(s, state, today, k, prev.value);
    } else {
      ChangeSinceNoPrevious(s, state, today, k);
    }
  }

  lemma ChangeSincePrevious(s: Series, state: string, today: DateString, k: string, k2: string)
    requires ValidSeries(s) && k in s.keys && HasState(s, state, k)
    requires LatestFor(s, state, Predecessor(KeyDate(k))) == Some(k2)
    ensures ChangeSince(s, state, FromKey(k), today) == ChangeOf(StateValue(s, state, k) - StateValue(s, state, k2))
    ensures ChangeSince(s, state, FromKey(k), today) == ChangeAfter(s, state, k)
  {
    var p := Predecessor(KeyDate(k));
    assert LatestDateString(s, state, p) == Some(FromKey(k2));
    assert IsStateAvailableForDate(s, state, FromKey(k2)) == Success(true) by {
      AvailabilityCheckHolds(s, state, p);
    }
    CompareKeys(s, state, today, k, k2);
    ChangeAfterPrevious(s, state, k, k2);
  }

  lemma ChangeSinceNoPrevious(s: Series, state: string, today: DateString, k: string)
    requires ValidSeries(s) && k in s.keys && HasState(s, state, k)
    requires LatestFor(s, state, Predecessor(KeyDate(k))).None?
    ensures ChangeSince(s, state, FromKey(k), today) == EmptyChange
    ensures ChangeSince(s, state, FromKey(k), today) == ChangeAfter(s, state, k)
  {
    assert LatestDateString(s, state, Predecessor(KeyDate(k))) == None;
  }

  lemma CompareKeys(s: Series, state: string, today: DateString, k: string, k2: string)
    requires ValidSeries(s) && k in s.keys && HasState(s, state, k) && k2 in s.keys && HasState(s, state, k2)
    requires IsStateAvailableForDate(s, state, FromKey(k2)) == Success(true)
    ensures CompareWith(s, state, FromKey(k), Some(FromKey(k2)), today) == ChangeOf(StateValue(s, state, k) - StateValue(s, state, k2))
  {
    ProbabilityOfKey(s, state, k, today);
    ProbabilityOfKey(s, state, k2, today);
  }

  /** Looking up a snapshot that lists the state by its own date reads that
      snapshot's value. */
  lemma ProbabilityOfKey(s: Series, state: string, k: string, today: DateString)
    requires ValidSeries(s) && k in s.keys && HasState(s, state, k)
    ensures ProbabilityAt(s, state, FromKey(k), today).democrat == StateValue(s, state, k)
  {
    LatestOfOwnDate(s, state, k);
  }

  /** Every snapshot date is a real calendar date. */
  predicate ValidDates(s: Series)
    requires ValidSeries(s)
  {
    forall k | k in s.keys :: Valid(KeyDate(k))
  }

  /** With real calendar dates, the snapshot the daily change compares
      against is the newest one that lists the state and is strictly older
      than the latest snapshot `k`; there is none exactly when no older
      snapshot lists the state. */
  lemma PreviousIsNewestOlder(s: Series, state: string, k: string)
    requires ValidSeries(s) && ValidDates(s) && k in s.keys && HasState(s, state, k)
    ensures var prev := LatestFor(s, state, Predecessor(KeyDate(k)));
            && (prev.None? <==> forall j | j in s.keys && HasState(s, state, j) :: !Lt(KeyDate(j), KeyDate(k)))
            && (prev.Some? ==>
                  Lt(KeyDate(prev.value), KeyDate(k))
                  && forall j | j in s.keys && HasState(s, state, j) && Lt(KeyDate(j), KeyDate(k)) ::
                       Le(KeyDate(j), KeyDate(prev.value)))
  {
    var p := Predecessor(KeyDate(k));
    LatestForIsNewest(s, state, p);
    forall j | j in s.keys && HasState(s, state, j)
      ensures Lt(KeyDate(j), KeyDate(k)) <==> Qualifies(s, state, p, j)
    {
      if Lt(KeyDate(j), KeyDate(k)) {
        PredecessorIsImmediate(KeyDate(k), KeyDate(j));
      }
      if Le(KeyDate(j), p) {
        LeTransitive(KeyDate(j), p, KeyDate(k));
      }
    }
  }

  /** `getElectoralVotes(state)`: the state's votes, 0 when it has none. */
  function ElectoralVotesOf(evs: Json<int>, state: string): (n: int)
    ensures state in evs.values ==> n == evs.values[state]
    ensures state !in evs.values ==> n == 0
  {
    evs.Get(state).GetOr(0)
  }
}
