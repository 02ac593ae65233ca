# election-forecast, modelled in Dafny

This project models the forecasting core of the election-forecast web app.
The data is a series of daily forecast snapshots, keyed by `YYYYMMDD` date
strings. Each snapshot maps a state to the Democratic chance of winning it,
and a second map gives each state's electoral votes. The services look up the
newest snapshot on or before a date that lists a state. From it they derive
the state's probabilities, its rating (Safe/Likely/Lean/Tilt for each party,
or Toss-Up), its colour on the map, its day-over-day change and the
electoral-vote totals.

The repository holds three revisions of this logic, and each is modelled as
written:

- **The map library service** (`projects/map/src/lib/map.service.ts`). Modules
  `Forecast` (the queries) and `MapServices`. `MapServices` holds the state
  cache that `getStateData` appends to, the electoral-vote loop, and the
  options service that the map component shares.
- **The state library service** (`projects/state/src/lib/state.service.ts`).
  Module `StateServices`. It shares the `Forecast` queries. Its rating reads
  `options?.x || true`, so tilts and toss-ups are always on.
- **The app's `ElectoralMapService`** (`src/app/services/electoral-map.service.ts`).
  Module `ElectoralMap`. Its snapshots are flat `state → value` maps, its
  daily change looks only at the exact previous day, and its rating, colour
  and change are computed as of "now" whatever date is asked for.

Shared pieces:

- The date helpers of `src/lib.ts` are in `Lib`.
- Calendar dates and the day-before function are in `Calendar`.
- Sorting keys and the newest-first scan are in `DateKeys`.
- The rating ladder is in `Rating`.
- The two `DateString` revisions are in `DateStrings` (core library) and
  `AppModels` (app).
- The value classes are in `Models` and `AppModels`.
- JSON objects are in `Json`: an ordered key list plus a map, so that
  `Object.keys` order is visible.

Where the source works by changing state, the model does too:

- The options object and its services are classes whose `setProperty`
  writes a field in place, and `get()` hands out the shared reference.
- The map service's cache is a sequence field that `getStateData` appends to.
- The cache key is a class, so each `new` is a distinct object.
- `getTotalElectoralVotes` and the newest-first scans are methods with loops.
  Each is proved equal to a specification function, and the properties are
  proved about that function.

The current date ("now", `new Date()`, `new DateString()`) is a parameter
everywhere.

The core library's `DateString` imports `../lib/lib`, which is not part of
this model. It is taken to be `src/lib.ts`.

The app service imports `dateStringToDate` and `formatDateToYYYYMMDD` from
`src/lib.ts`, which does not define them. They are modelled as
`dateFromYYYYMMDD` and `dateToYYYYMMDD`. The app's `types/state-probabilities`
file is not part of this model either. Its series is treated as
`date → state → number`, which is how the service indexes it.

## Model

| member | source | states |
|---|---|---|
| `Calendar.Predecessor` | projects/map/src/lib/map.service.ts:265-267 | The day before a date (what subtracting 24 hours denotes): strictly earlier, and a real date when the input is. |
| `Calendar.PredecessorIsImmediate` | src/app/services/electoral-map.service.ts:128-131 | No real date lies strictly between a date and its predecessor, so "the previous day" is exactly one day back. |
| `Lib.NatToString` | src/lib.ts:16-17 | `String(n)` gives canonical decimal digits (no leading zero) whose value is `n`. |
| `Lib.DigitsRoundTrip` | src/lib.ts:102-108 | Printing the number a canonical digit string parses to gives the string back. |
| `Lib.DigitsValueInjective` | src/lib.ts:102-108 | Two digit strings of the same length with equal values are equal. |
| `Lib.PadStart2` | src/lib.ts:16-17 | `padStart(2, '0')`: the length is max(len, 2). |
| `Lib.PadStart2Pads` | src/lib.ts:16-17 | The input is the suffix of the padded text, and everything before it is '0'. |
| `Lib.JoinFields` | src/lib.ts:19 | `[year, month, day].join(sep)` is the generic join of the three fields. |
| `Lib.SplitOn` | src/lib.ts:55 | `split(c)` yields at least one part. |
| `Lib.JoinSplitOn` | src/lib.ts:55 | Joining the parts of `split(c)` back with `c` gives the original string. |
| `Lib.SplitOnAbsent` | src/lib.ts:55 | A string without the separator splits into itself alone. |
| `Lib.SplitOnFirst` | src/lib.ts:55 | The first separator ends the first part. |
| `Lib.StripCommas` | src/lib.ts:103 | `replace(/,/g, '')` leaves no comma and never lengthens the string. |
| `Lib.StripCommasNoop` | src/lib.ts:103 | A string without commas is left unchanged. |
| `Lib.DigitPrefixLength` | src/lib.ts:103 | The parsed prefix is all digits and stops at the first non-digit. |
| `Lib.StringToNumber` | src/lib.ts:102-108 | The only error it throws is `Invalid number format`. Its lemmas give the value of a digit string, the removal of commas, the stop at the first non-digit and the NaN case. |
| `Lib.StringToNumberOfDigits` | src/lib.ts:102-108 | A non-empty digit string parses to its decimal value. |
| `Lib.StringToNumberIgnoresComma` | src/lib.ts:103 | A comma anywhere does not change the result. |
| `Lib.StringToNumberWithoutDigits` | src/lib.ts:105 | A string without any digit throws `Invalid number format`. |
| `Lib.StringToNumberStopsAtNonDigit` | src/lib.ts:103 | Parsing stops at the first non-digit and returns the value of the digits before it. |
| `Lib.KeyNumberFields` | projects/map/src/lib/map.service.ts:175 | `Number(key)` is year·10000 + month·100 + day, with a four-digit year. |
| `Lib.KeyOrderIsDateOrder` | projects/map/src/lib/map.service.ts:175 | Keys compare numerically exactly as their dates compare chronologically, and equal numbers mean equal keys. |
| `Lib.KeyYearPrints` | src/lib.ts:88-92 | The printed year of a key is its first four characters. |
| `Lib.PaddedFieldPrints` | src/lib.ts:90-91 | A two-digit field of value at least 1, printed and padded, is itself. |
| `Lib.SplitYYYYMMDD` | src/lib.ts:46-66 | A success has three fields. The only errors are `Invalid date string format` and `Invalid number format`. A string shorter than 8 characters throws `Invalid date string format`. Its lemmas give the key path (`SplitKey`) and the separated path (the finding below). |
| `Lib.SplitKey` | src/lib.ts:47-52 | On an 8-character key, `splitYYYYMMDD` gives [year, month − 1, day] read from characters 0-3, 4-5 and 6-7. |
| `Lib.SplitConcatRoundTrip` | src/lib.ts:46-93 | For a valid key `s`, `concatYYYYMMDD(splitYYYYMMDD(s)) == s`. |
| `Lib.ConcatKeyFields` | src/lib.ts:77-93 | Concatenating a key's fields (month zero-based) gives the key. |
| `Lib.DateToYYYYMMDD` | src/lib.ts:12-20 | A four-digit year with an in-range month and day gives 8 characters plus two separators. Its lemmas prove that a key's date formats back to the key and that it agrees with `concatYYYYMMDD`. |
| `Lib.DateToYYYYMMDDOfKey` | src/lib.ts:12-20 | `dateToYYYYMMDD` of a key's date is the key. |
| `Lib.FieldsPrint` | src/lib.ts:12-20 | `dateToYYYYMMDD` prints the year, the padded 1-based month and the padded day, joined. |
| `Lib.DateToMatchesConcat` | src/lib.ts:77-93 | On an in-range month and day, `concatYYYYMMDD` of a date's fields succeeds and equals `dateToYYYYMMDD` with the same separator. |
| `Lib.ConcatYYYYMMDD` | src/lib.ts:77-93 | A wrong number of fields throws `Invalid date array format`. A success is `dateToYYYYMMDD` of the same year, month and day. `ConcatAccepts` gives the exact ranges it accepts. |
| `Lib.DateFromYYYYMMDD` | src/lib.ts:29-36 | In the model it succeeds exactly when `splitYYYYMMDD` does, because a calendar triple is never an Invalid Date (see Left out). A year field of 0 to 99 is read as 19xx. A canonical key gives the key's own date. |
| `Lib.TwoDigitYearIs19xx` | src/lib.ts:30-31 | An all-digit eight-character string whose year field is `00` to `0099` gives a date in 1900 to 1999, as `new Date(y, m, d)` reads a year below 100. |
| `Lib.TheLastDayOf1999` | src/lib.ts:30-31 | `"00991231"` is 31 December 1999. |
| `Lib.ConcatAccepts` | src/lib.ts:81-86 | `concatYYYYMMDD` succeeds exactly when there are three fields with 0 ≤ month ≤ 11 and 1 ≤ day ≤ 31, and a wrong number of fields throws `Invalid date array format`. |
| `Lib.ConcatSplitRoundTrip` | src/lib.ts:77-92 | A four-digit year with in-range month and day concatenates to a valid key, and splitting that key returns the fields. |
| `Lib.TwoDigitField` | src/lib.ts:90-91 | A month or day 1..31, printed and padded, is two digits with that value. |
| `Lib.FourDigitYear` | src/lib.ts:88-89 | A year 1000..9999 prints as four characters. |
| `Lib.AssembleKey` | src/lib.ts:88-92 | Four, two and two digits in range form a key with those fields. |
| `Lib.SplitIsoDateFails` | src/lib.ts:53-57 | As written, `splitYYYYMMDD("2024-11-05")` throws: it splits on the year digit at index 2. |
| `Lib.SplitIsoDateMisreads` | src/lib.ts:53-63 | As written, `"1123-05-27"` splits on '2' into [11, 2, 7], wrong fields with no error. |
| `Lib.SplitYYYYMMDDFixed` | src/lib.ts:46-66 | The corrected split: on up to 8 characters it is `splitYYYYMMDD`, and a success has three fields. |
| `Lib.SplitFixedSeparated` | src/lib.ts:53-63 | The corrected split, separator after the year, reads `YYYY<c>MM<c>DD` exactly as the unseparated key. |
| `DateStrings.DateString.Split` | projects/core/src/lib/types/date-string.ts:94-100 | `split()` has three parts. `DateStrings.SplitOfKey` gives their values. |
| `DateStrings.FromDate` | projects/core/src/lib/types/date-string.ts:39-45 | The DateString of a Date is what the constructor builds from it, for every "now". |
| `DateStrings.Create` | projects/core/src/lib/types/date-string.ts:31-46 | The separator argument is stored as given, and a falsy argument yields the current date. Its lemmas cover keys, dashed dates and `Date` arguments. |
| `DateStrings.CreateFalsyIsNow` | projects/core/src/lib/types/date-string.ts:32 | A falsy argument (undefined, '', 0) is replaced by the current date. |
| `DateStrings.CreateFromKey` | projects/core/src/lib/types/date-string.ts:33-37 | For a valid key `s`, whatever the separator and the current date, the constructor succeeds. It stores the separator, the key's date, and `s` as `getValue()` and `toString()`. |
| `DateStrings.CreateTextIgnoresSeparator` | projects/core/src/lib/types/date-string.ts:33-37 | The separator argument takes no part in parsing: success, error, date and value are the same for any two separators. |
| `DateStrings.CreateFromIsoDateFails` | projects/core/src/lib/types/date-string.ts:35 | `new DateString("2024-11-05")` throws, whatever the separator. |
| `DateStrings.CreateFromMoment` | projects/core/src/lib/types/date-string.ts:39-45 | From a Date or instant in range, `getValue()` is `dateToYYYYMMDD` of it with no separator. |
| `DateStrings.SplitOfKey` | projects/core/src/lib/types/date-string.ts:94-100 | `split()` of a key's DateString is [year, 1-based month, day] of the key. |
| `DateStrings.DateString.GetValueWithSeparator` | projects/core/src/lib/types/date-string.ts:65-70 | The result starts with the padded year followed by the chosen separator: the argument, or the stored one when the argument is omitted or empty. The lemmas below give the whole text for keys. |
| `DateStrings.WithSeparatorFallsBack` | projects/core/src/lib/types/date-string.ts:65-70 | An omitted or empty argument uses the stored separator. |
| `DateStrings.WithSeparatorOfKey` | projects/core/src/lib/types/date-string.ts:65-70 | A key's DateString shows its three fields, month and day zero-padded, joined by the chosen separator. |
| `DateStrings.WithoutSeparatorOfKey` | projects/core/src/lib/types/date-string.ts:65-70 | With no separator, `getValueWithSeparator()` is `getValue()`. |
| `DateStrings.KeyFieldsPrint` | projects/core/src/lib/types/date-string.ts:66-69 | Each field of a key, printed and padded, is the key's own characters. |
| `DateKeys.SortDescending` | projects/map/src/lib/map.service.ts:175 | The sort is a permutation of its input. |
| `DateKeys.SortDescendingSorted` | projects/map/src/lib/map.service.ts:175 | Elements with pairwise different numbers come out in strictly descending order. |
| `DateKeys.SortedKeys` | projects/state/src/lib/state.service.ts:90-94 | Distinct keys sorted by `Number` are a permutation of the input, distinct, strictly descending and all keys. |
| `DateKeys.FirstWhere` | projects/map/src/lib/map.service.ts:212-219 | The first element that passes, or none exactly when no element passes. |
| `DateKeys.FirstWhereAt` | projects/map/src/lib/map.service.ts:212-219 | The loop's early return at the first passing index is `FirstWhere`. |
| `DateKeys.FirstWhereIsLargest` | projects/map/src/lib/map.service.ts:212-219 | In a descending list the first match has the largest number among the matches. |
| `DateKeys.LatestIsNewest` | projects/map/src/lib/map.service.ts:208-220 | The newest passing key: none iff no key passes, else it passes and no passing key is later. |
| `DateKeys.LatestIsUnique` | projects/map/src/lib/map.service.ts:208-220 | A passing key not before any other passing key is the one found. |
| `Json.Empty` | projects/core/src/lib/types/probabilities.ts:38 | `{}` is well formed and has no keys. |
| `Models.StateProbability.Margin` | projects/core/src/lib/models/state-probability.ts:42-44 | The margin's sign is the comparison of the two chances: positive, zero or negative exactly when Democrat >, =, < Republican. |
| `Models.NewStateProbability` | projects/core/src/lib/models/state-probability.ts:28-36 | Stores the arguments unchanged, defaulting to 0, 100 and today's DateString. No sum to 100 is enforced. |
| `Models.StateData.WinningParty` | projects/core/src/lib/models/state-data.ts:79-85 | None iff the chances are equal, Democrat iff Democrat is ahead, Republican iff behind. The result depends on the probabilities only. |
| `Models.NewProbabilities` | projects/core/src/lib/types/probabilities.ts:35-43 | Defaults are 0, 0 and `{}`; arguments are stored unchanged. |
| `Models.FromJson` | projects/core/src/lib/types/probabilities.ts:45-51 | Renames PopularVote, ElectoralCollege and States and keeps their values. A missing States becomes `{}`. |
| `Models.FromJsonInjective` | projects/core/src/lib/types/probabilities.ts:45-51 | Injective up to a missing `States`, which reads as `{}`: equal objects come from snapshots with equal `PopularVote`, equal `ElectoralCollege` and equal `States` once a missing one is read as `{}`. |
| `Models.Loaded` | projects/map/src/lib/map.service.ts:440-447 | `states` is `States` as given, `undefined` included. When `States` is present the object is `fromJson` of the snapshot. |
| `Models.LoadedMatchesFromJson` | projects/map/src/lib/map.service.ts:440-447 | The loader's own field renaming equals `fromJson` exactly when States is present. |
| `Models.MapOptions.constructor` | projects/core/src/lib/models/map-options.ts:31-39 | Stores tilts, tossups and solidOnly (defaults true, true, false) and no other property. |
| `Models.MapOptions.ToRatingOptions` | projects/core/src/lib/models/map-options.ts:41-43 | A new value copying tilts and tossups, without solidOnly. The options are not changed. |
| `Models.MapOptions.SetProperty` | src/lib.ts:130-132 | `setProperty(o, k, v)` sets exactly the named property to `v`. Every other property keeps its value. |
| `Models.StateDataKey.constructor` | projects/core/src/lib/types/state-data-key.ts:22-29 | The state is stored verbatim. A string date is stored as given, a DateString as its `getValue()`. |
| `Models.TwoKeysForOneDate` | projects/core/src/lib/types/state-data-key.ts:22-29 | Keys built from a DateString and from its value have equal fields yet are distinct objects. |
| `Rating.Classify` | projects/map/src/lib/map.service.ts:141-165 | The ladder: tilts off never gives a Tilt rating, and Toss-Up only comes with toss-ups on or a zero margin. |
| `Rating.ClassifyBands` | projects/map/src/lib/map.service.ts:141-165 | With both options on and ordered thresholds, each rating is exactly one band of margins, both directions. |
| `Rating.ZeroIsTossUp` | projects/map/src/lib/map.service.ts:158-159 | A zero margin is a toss-up whatever the options. |
| `Rating.ClassifyWithoutTossUps` | projects/map/src/lib/map.service.ts:158-164 | With toss-ups off, a non-zero margin below the lean threshold goes to the leading party's Tilt (tilts on) or Lean rating. |
| `Rating.ClassifySymmetric` | projects/map/src/lib/map.service.ts:141-165 | The opposite margin gets the mirror rating. |
| `Rating.ClassifyMonotone` | projects/map/src/lib/map.service.ts:141-165 | A larger margin never gives a less Democratic rating. |
| `Forecast.KeysNewestFirst` | projects/map/src/lib/map.service.ts:174-175 | As many date keys as the series has snapshots. |
| `Forecast.KeysNewestFirstSorted` | projects/map/src/lib/map.service.ts:174-175 | The sorted keys are the snapshot keys, each once, in strictly descending numeric order: a permutation of `Object.keys`. |
| `Forecast.AvailableDateStrings` | projects/map/src/lib/map.service.ts:173-177 | One DateString per key, in sorted order. The state library's `getDateStrings` (state.service.ts lines 90-94) is the same. |
| `Forecast.AvailableDateStringsNewestFirst` | projects/map/src/lib/map.service.ts:173-177 | The listed values are the snapshot keys, each exactly once, strictly newest first by date. |
| `Forecast.GetProbabilities` | projects/map/src/lib/map.service.ts:247-249 | The snapshot stored under the date's value, or undefined when there is none. |
| `Forecast.AvailableStatesForDate` | projects/map/src/lib/map.service.ts:184-187 | Throws (reads `.states` of undefined) for an unknown date. Otherwise exactly the states the snapshot lists, or [] when it has no states. Also `getForDate` in the state library. |
| `Forecast.IsStateAvailableForDate` | projects/map/src/lib/map.service.ts:196-198 | Throws for an unknown date. Otherwise true iff the snapshot lists the state. Also `hasDataForDate`. |
| `Forecast.LatestFor` | projects/map/src/lib/map.service.ts:208-220 | The key found lists the state, is on or before the bound, and is in the series. |
| `Forecast.LatestDateString` | projects/map/src/lib/map.service.ts:208-220 | undefined iff no key qualifies, else the DateString of the key `LatestFor` finds. |
| `Forecast.LatestForIsNewest` | projects/map/src/lib/map.service.ts:208-220 | None iff no snapshot lists the state on or before the bound. Otherwise no qualifying snapshot is later. |
| `Forecast.ScanFound` | projects/map/src/lib/map.service.ts:213-216 | The first qualifying date of the newest-first scan is the latest date. |
| `Forecast.ScanMiss` | projects/map/src/lib/map.service.ts:213-215 | A date whose test fails does not qualify, so no scanned date qualifies yet. |
| `Forecast.ScanAt` | projects/map/src/lib/map.service.ts:213-216 | The scan's test on the i-th newest date. When it passes, that date is the latest qualifying one. When it fails, no scanned date qualifies yet. |
| `Forecast.NoneQualifiesBefore` | projects/map/src/lib/map.service.ts:213-218 | After `n` failed tests, none of the first `n` keys qualifies. |
| `Forecast.ScanExhausted` | projects/map/src/lib/map.service.ts:219 | A scan that finds nothing means there is no latest date. |
| `Forecast.LatestOfOwnDate` | projects/map/src/lib/map.service.ts:264 | Looking up a snapshot that lists the state by its own date finds that snapshot. |
| `Forecast.ProbabilityAt` | projects/map/src/lib/map.service.ts:229-239 | (0, 100, today) with no data. Otherwise the snapshot value, 100 minus it, and the resolved date. The two always sum to 100. Also `getProbability` (state.service.ts lines 146-156). |
| `Forecast.ProbabilityOfKey` | projects/map/src/lib/map.service.ts:229-238 | Looking up a snapshot by its own date reads that snapshot's value. |
| `Forecast.ChangeOf` | projects/map/src/lib/map.service.ts:271-283 | Zero gives 'None' and no advantage. A positive diff gives "D +diff" and Democrat, a negative one "R +(−diff)" and Republican. |
| `Forecast.DailyChangeAt` | projects/map/src/lib/map.service.ts:258-287 | Text '' with no snapshot. Otherwise the change against the latest snapshot on or before the day before the latest one, or an empty change when there is none. Also the state library's `getDailyChange` (lines 175-204). |
| `Forecast.AvailabilityCheckHolds` | projects/map/src/lib/map.service.ts:270 | The `isStateAvailableForDate` test on a found date always holds. |
| `Forecast.ChangeAfter` | projects/map/src/lib/map.service.ts:258-287 | The change of snapshot `k` is empty exactly when no snapshot listing the state lies on or before the day before `k`. `PreviousIsNewestOlder` identifies the snapshot compared against. |
| `Forecast.ChangeSinceKey` | projects/map/src/lib/map.service.ts:264-286 | From snapshot `k`, the change is `ChangeAfter(k)`: against the latest snapshot on or before the day before `k`, or empty when there is none. |
| `Forecast.ChangeSincePrevious` | projects/map/src/lib/map.service.ts:270-283 | With an earlier snapshot `k2`, the change is `ChangeOf(value(k) − value(k2))`. |
| `Forecast.ChangeSinceNoPrevious` | projects/map/src/lib/map.service.ts:284-286 | Without an earlier snapshot, the change is `new DailyChange()`. |
| `Forecast.CompareKeys` | projects/map/src/lib/map.service.ts:270-283 | Comparing two listed snapshots gives `ChangeOf` of their value difference. |
| `Forecast.PreviousIsNewestOlder` | projects/map/src/lib/map.service.ts:265-268 | On real dates, the snapshot compared with is the newest one strictly older than the latest one that lists the state. |
| `Forecast.ElectoralVotesOf` | projects/map/src/lib/map.service.ts:368-370 | `evs[state]`, or 0 when absent. Also `getElectoralVotes` in the state library (lines 211-213). |
| `MapServices.MapOptionsService.constructor` | projects/map/src/lib/services/map-options.service.ts:7 | A fresh options object with tilts and toss-ups on, solid-only off, and nothing else. |
| `MapServices.MapOptionsService.Get` | projects/map/src/lib/services/map-options.service.ts:11-13 | Returns the stored object itself, every time. |
| `MapServices.MapOptionsService.SetProperty` | projects/map/src/lib/services/map-options.service.ts:15-17 | The named field becomes the value and no other field changes. The app's `ElectoralMapOptionsService` (src/app/services/electoral-map-options.service.ts) is the same class over the same fields and defaults. |
| `MapServices.EarlierReferenceSeesChange` | projects/map/src/lib/map.component.ts:34 | A reference held from an earlier `get()` sees a later `setProperty`. |
| `MapServices.UpdateMapOptions` | projects/map/src/lib/map.component.ts:56-64 | Checking solid-only also clears tilts and toss-ups. Any other box only sets its own field. |
| `MapServices.Palette` | projects/map/src/lib/map.service.ts:396-415 | Nine colours, one per rating. |
| `MapServices.ColorOf` | projects/map/src/lib/map.service.ts:396-415 | The colour of a rating is one of the nine configured colours. `ColorAtRank` gives which one, and `ColorOfInjective` proves distinct ratings get distinct colours. |
| `MapServices.SolidOnlyColor` | projects/map/src/lib/map.service.ts:387-394 | In solid-only mode the colour is that of Solid D when the Democrat leads, Solid R when the Republican leads, and Toss-Up on a tie. |
| `MapServices.ColorAtRank` | projects/map/src/lib/map.service.ts:396-415 | A rating's colour is the palette entry at the rating's rank. |
| `MapServices.ColorOfInjective` | projects/map/src/lib/map.service.ts:396-415 | With distinct colours, the colour tells the rating. |
| `MapServices.SolidOnlyDisagreesWithRating` | projects/map/src/lib/map.service.ts:387-394 | In solid-only mode a margin below the solid threshold gets a colour other than its rating's. |
| `MapServices.TallyConserves` | projects/map/src/lib/map.service.ts:72-91 | dem + rep = baseDem + baseRep + the votes of the states not rated Toss-Up. |
| `MapServices.TallyOfSnoc` | projects/map/src/lib/map.service.ts:78-88 | Tallying one more state continues from the totals so far. |
| `MapServices.TallyByLeader` | projects/map/src/lib/map.service.ts:79-88 | With no tied non-Toss-Up state, each party gets its base plus the votes of the non-Toss-Up states it leads. |
| `MapServices.MapService.constructor` | projects/map/src/lib/map.service.ts:44-51 | The service over the loaded data and configuration, with an empty cache. |
| `MapServices.MapService.GetStateRating` | projects/map/src/lib/map.service.ts:133-166 | The ladder applied to `2d − 100` of the latest snapshot's value `d` (−100 with none), with the shared options' tilts and toss-ups. Tilts off never gives a Tilt rating. |
| `MapServices.MapService.GetColor` | projects/map/src/lib/map.service.ts:379-417 | Solid-only: solid D/R/toss-up colour by the margin's sign. Otherwise the rating's colour. |
| `MapServices.MapService.GetStateData` | projects/map/src/lib/map.service.ts:100-125 | The key is a fresh object, so the cache never hits. Each call appends exactly one entry, keyed by the state and the date's value. The record is `RecordOf`: probabilities, rating, colour, change and votes as the other queries compute them. |
| `MapServices.MapService.EntriesHaveLeaders` | projects/map/src/lib/map.service.ts:80-81 | With ordered thresholds, every state not rated Toss-Up has a non-zero margin. |
| `MapServices.MapService.AddStateVotes` | projects/map/src/lib/map.service.ts:79-87 | One pass of the loop: the new totals are the old ones tallied with the state's entry. The cache grows by one entry: a fresh key for the state and the date's value, holding the state's `RecordOf`. |
| `MapServices.MapService.GetTotalElectoralVotes` | projects/map/src/lib/map.service.ts:72-91 | The loop's totals are the tally over the configured states in `Object.keys` order. The cache gains one entry per configured state, in that order, each keyed by the state and the date's value and holding the state's record (`CachedAs`, `RecordsOf`). |
| `MapServices.CachedAsAppend` | projects/map/src/lib/map.service.ts:79 | Appending one entry to the cache extends the states and records it holds by that entry. |
| `MapServices.MapService.GetLatestDateStringForState` | projects/map/src/lib/map.service.ts:208-220 | The newest-first loop returns `LatestDateString`: the latest snapshot on or before the bound that lists the state. |
| `StateServices.OrTrue` | projects/state/src/lib/state.service.ts:55-56 | `x || true` is always true. |
| `StateServices.StateService.constructor` | projects/state/src/lib/state.service.ts:29-35 | The service over the loaded data and margins. |
| `StateServices.StateService.GetRating` | projects/state/src/lib/state.service.ts:47-83 | The ladder with tilts and toss-ups on, applied to `2d − 100` of the latest value, or to −100 with none. |
| `StateServices.StateService.GetRatingIgnoresOptions` | projects/state/src/lib/state.service.ts:55-56 | Any two options give the same rating. |
| `StateServices.StateService.GetRatingBands` | projects/state/src/lib/state.service.ts:58-81 | Toss-Up iff the margin is within ±tilt. TiltD iff tilt ≤ margin < lean. TiltR iff −lean < margin ≤ −tilt. |
| `StateServices.StateService.GetLatestDateString` | projects/state/src/lib/state.service.ts:125-137 | The newest-first loop returns the latest snapshot on or before the bound that lists the state, else undefined. |
| `AppModels.DateString.Split` | src/app/types/date-string.ts:80-86 | `split()` has three parts. `AppModels.SplitOfKey` gives their values. |
| `AppModels.SplitOfKey` | src/app/types/date-string.ts:80-86 | For a canonical key `k` and any separator, `split()` of `new DateString(k, separator)` is [year, month, day] read from `k`'s characters 0-3, 4-5 and 6-7. |
| `AppModels.Create` | src/app/types/date-string.ts:23-37 | The separator argument is stored, and a falsy argument yields the current date. `CreateFromKey` gives the separated value for a key. |
| `AppModels.CreateFalsyIsNow` | src/app/types/date-string.ts:24 | A falsy argument is replaced by the current date. |
| `AppModels.CreateFromKey` | src/app/types/date-string.ts:25-30 | From a key, `getValue()` is year, month and day joined by the constructor's separator, so only the empty separator gives the key back. |
| `AppModels.ConcatKeyFieldsWith` | src/app/types/date-string.ts:29 | `concatYYYYMMDD(split(key), sep)` puts the separator between the key's digits. |
| `AppModels.DateString.GetValueWithSeparator` | src/app/types/date-string.ts:53-56 | The result starts with the unpadded year followed by the chosen separator. `WithSeparatorUnpadded` gives its length against the core class. |
| `AppModels.WithSeparatorFallsBack` | src/app/types/date-string.ts:53-56 | An omitted or empty argument uses the stored separator. |
| `AppModels.WithSeparatorUnpadded` | src/app/types/date-string.ts:53-56 | No zero padding: one character shorter than the core revision per month before October and per day before the tenth. |
| `AppModels.StateDataKey.constructor` | src/app/types/state-data-key.ts:7-14 | The state is stored verbatim. A string date is stored as given, a DateString as its `getValue()`, separator included. |
| `AppModels.KeysForOneDate` | src/app/types/state-data-key.ts:7-14 | Keys from equal inputs have equal fields but are distinct objects. The date field holds the separated value, not the key. |
| `AppModels.StateProbabilities.Margin` | src/app/models/state-probabilities.ts:18-20 | The margin's sign matches the comparison of the two chances. |
| `AppModels.NewStateProbabilities` | src/app/models/state-probabilities.ts:8-16 | Stores the arguments, defaulting to 0, 100 and today. |
| `AppModels.ElectoralProbabilities.Margin` | src/app/models/electoral-probabilities.ts:10-12 | Margin zero iff equal, positive iff Democrat is ahead. The two values are whatever the constructor got. |
| `AppModels.StateData.WinningParty` | src/app/models/state-data.ts:34-40 | None, Democrat or Republican exactly as the chances compare, independent of rating and colour. |
| `ElectoralMap.IndexOf` | src/app/services/electoral-map.service.ts:97 | `indexOf`: −1 iff absent, otherwise the first position of the element. |
| `ElectoralMap.AvailableDateStrings` | src/app/services/electoral-map.service.ts:86-89 | The keys, a permutation of `Object.keys`, distinct and strictly descending by `Number`. |
| `ElectoralMap.AvailableDateStringsNewestFirst` | src/app/services/electoral-map.service.ts:86-89 | Each later entry is an earlier date. |
| `ElectoralMap.AvailableStatesForDate` | src/app/services/electoral-map.service.ts:91-94 | [] for a date not in the series. Otherwise exactly the states the flat snapshot lists. |
| `ElectoralMap.IsStateAvailableForDate` | src/app/services/electoral-map.service.ts:96-98 | True iff the snapshot of that date lists the state. |
| `ElectoralMap.LatestKey` | src/app/services/electoral-map.service.ts:100-109 | '' or a key in the series that lists the state and is on or before the bound. |
| `ElectoralMap.LatestKeyIsNewest` | src/app/services/electoral-map.service.ts:100-109 | '' iff no key qualifies. Otherwise no qualifying key is later. |
| `ElectoralMap.LatestKeyOfOwnDate` | src/app/services/electoral-map.service.ts:128-133 | A key that lists the state is its own latest key. |
| `ElectoralMap.ScanFound` | src/app/services/electoral-map.service.ts:103-106 | The first qualifying key of the scan is `LatestKey`. |
| `ElectoralMap.ScanMiss` | src/app/services/electoral-map.service.ts:103-105 | A key whose test fails does not qualify, so no scanned key qualifies yet. |
| `ElectoralMap.ScanAt` | src/app/services/electoral-map.service.ts:103-106 | The key parses to a date. When the scan's test passes, the key is `LatestKey`. When it fails, no scanned key qualifies yet. |
| `ElectoralMap.NoneQualifiesBefore` | src/app/services/electoral-map.service.ts:103-107 | After `n` failed tests, none of the first `n` keys qualifies. |
| `ElectoralMap.ScanExhausted` | src/app/services/electoral-map.service.ts:108 | A scan that finds nothing gives ''. |
| `ElectoralMap.ParsesToKeyDate` | src/lib.ts:29-36 | `dateFromYYYYMMDD` of a key is the key's date. |
| `ElectoralMap.DateStringToDate` | src/app/services/electoral-map.service.ts:104 | On a key, the parsed date is the key's date. |
| `ElectoralMap.ProbabilitiesFor` | src/app/services/electoral-map.service.ts:111-116 | (0, 100) with no data, else the latest value and 100 minus it. Always sums to 100. |
| `ElectoralMap.RatingFor` | src/app/services/electoral-map.service.ts:60-84 | The ladder with tilts and toss-ups on, applied to the margin as of now. |
| `ElectoralMap.HexColorsDistinct` | src/app/services/electoral-map.service.ts:209-232 | The nine hex colours of `getColor` are pairwise distinct. |
| `ElectoralMap.ColorFor` | src/app/services/electoral-map.service.ts:209-232 | The colour of the state's rating as of now: always one of the nine hex colours of the switch. |
| `ElectoralMap.ColorTellsRating` | src/app/services/electoral-map.service.ts:209-232 | Different ratings get different colours. |
| `ElectoralMap.AppChangeOf` | src/app/services/electoral-map.service.ts:137-147 | Zero gives 'No Change' and no advantage. Otherwise the text and advantage of the diff's sign. |
| `ElectoralMap.ChangeFor` | src/app/services/electoral-map.service.ts:118-152 | No latest key gives the empty change, and an advantage is reported only with a gain text. `ChangeForMargins` and `GetDailyChange` tie it to the margins the service compares. |
| `ElectoralMap.ChangeForMargins` | src/app/services/electoral-map.service.ts:128-151 | The change compares the margins of the latest date and the exact previous day. It is empty when that day does not list the state, even if older snapshots exist. |
| `ElectoralMap.MarginsOfOwnDates` | src/app/services/electoral-map.service.ts:135-137 | Two snapshots that list the state, each read as of its own date: their margins differ by twice the difference in their chances. |
| `ElectoralMap.ElectoralMapService.constructor` | src/app/services/electoral-map.service.ts:21 | The service over the loaded JSON and margins. |
| `ElectoralMap.ElectoralMapService.GetLatestDateStringForState` | src/app/services/electoral-map.service.ts:100-109 | The newest-first loop returns `LatestKey`: the latest date on or before the bound that lists the state, or ''. |
| `ElectoralMap.ElectoralMapService.GetProbabilities` | src/app/services/electoral-map.service.ts:111-116 | Equals `ProbabilitiesFor`. |
| `ElectoralMap.ElectoralMapService.GetStateRating` | src/app/services/electoral-map.service.ts:60-84 | Equals `RatingFor` as of now. |
| `ElectoralMap.ElectoralMapService.GetColor` | src/app/services/electoral-map.service.ts:209-232 | The colour of the rating as of now. |
| `ElectoralMap.ElectoralMapService.GetDailyChange` | src/app/services/electoral-map.service.ts:118-152 | Equals the exact-previous-day change as of now. |
| `ElectoralMap.ElectoralMapService.GetStateData` | src/app/services/electoral-map.service.ts:49-58 | Probabilities as of the requested date. Rating, colour and change as of now, whatever the date. The rating matches the probabilities only when the date is now. |

## Left out

- Loading: `load`, `loadJsonData`, the electoral-vote and probability loaders, the geo data and the app's `AppService`. The loaded series and vote map are inputs. Only the loader's field renaming is modelled (`Models.Loaded`).
- `getTooltip` and `getCandidate` in both map services, which build HTML and look up display names.
- The UI components (d3/SVG rendering, Angular wiring). Only the map component's options rule is modelled (`MapServices.UpdateMapOptions`).
- Configuration getters and constant files. Margins, colours and the electoral-vote configuration are immutable inputs.
- `Forecast.ChangeOf`: the change text keeps the amount as a number. `toFixed(1)` formatting and its `-diff.toFixed(1)` quirk are not modelled.
- `ElectoralMap.AppChangeOf`: the same; only the choice of text and the advantage are modelled.
- `Lib.StringToNumber`: `parseFloat` is modelled on an optional sign and digits after commas are stripped. Fractions, exponents, whitespace and `Infinity` are not modelled, so probabilities are read only from the stored numbers.
- MapServices.MapService.GetTotalElectoralVotes: its ensures does not repeat that each appended key is a fresh object. `GetStateData` and `AddStateVotes` state that for each call.
- Lib.DateFromYYYYMMDD: the `Invalid date string format` throw of src/lib.ts:33 is not modelled. A calendar triple has no Invalid Date, so fields far outside JavaScript's time range (e.g. `"12-99999999999-1"`) succeed in the model where the source throws.
- Lib.DateToYYYYMMDD: the `Invalid Date` throw of src/lib.ts:13 is not modelled, for the same reason. Every calendar triple is formatted.
- DateStrings.Create: it inherits both gaps. A date string whose fields lie outside JavaScript's time range is accepted, and a `Date` argument is never invalid.
- AppModels.Create: the same as `DateStrings.Create`.
- JavaScript `Date`: local time zone, time of day, DST, and `new Date(y, m, d)` rolling an impossible month or day over. Its reading of a year below 100 as 19xx is modelled (`Lib.FullYear`). A date is a calendar triple. The previous day is `Calendar.Predecessor`, standing for both the 24-hour subtraction and `setUTCDate`. An instant (a number argument) is given with its local calendar date.
- The number 0 passed to a `DateString` constructor is falsy and means now. Other numbers are modelled by the local date they denote.
- `setProperty` with non-boolean values: the options fields are booleans.
- Numbers are reals (probabilities, margins) and unbounded integers (votes). Floating-point rounding is not modelled.
- `Forecast.ValidSeries`, `ElectoralMap.ValidFlat`: the queries require every snapshot key to be a valid `YYYYMMDD` key, as the data files have. Other keys would make `Number` ordering and date parsing differ.
- The app's `getStateData` builds an object literal without `getWinningParty`. It is `ElectoralMap.ElectoralStateData`, a plain record.
- The electoral-vote total of the app service is not part of that service. Only the map library computes it.

## Findings

| source | as written | input that shows it | evidently intended | confidence | as-written member | corrected member |
|---|---|---|---|---|---|---|
| src/lib.ts:54 | `splitYYYYMMDD` takes the separator of a longer string from index 2, a digit of the year | `"2024-11-05"` splits on '2' into three wrong parts and throws. `"1123-05-27"` parses to [11, 2, 7] with no error. | take the separator after the four-digit year (index 4) | not executed | `Lib.SplitIsoDateFails`, `Lib.SplitIsoDateMisreads` | `Lib.SplitFixedSeparated` (about `Lib.SplitYYYYMMDDFixed`) |

The corrected `Lib.SplitYYYYMMDDFixed` reads `YYYY<c>MM<c>DD` exactly as the unseparated key. On strings of at most eight characters it equals the original, as its own ensures states. Every service calls the split on unseparated snapshot keys, so the service models are the same under either definition. The `DateString` constructors keep the code as written, so `DateStrings.CreateFromIsoDateFails` shows the finding from the outside.
