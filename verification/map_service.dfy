/** The map library's services (`projects/map/src/lib`): the options
    service that hands out one shared `MapOptions` object, and `MapService`,
    which answers the map's queries over the loaded series and keeps a cache
    of the state records it has built. */
module MapServices {
  import opened Wrappers
  import opened Calendar
  import opened DateStrings
  import opened Json
  import opened Models
  import opened DateKeys
  import opened Rating
  import opened Forecast

  /** `MapOptionsService`: owns one `MapOptions` object for its lifetime. */
  class MapOptionsService {
    const options: MapOptions

    /** The options start as `new MapOptions()`. */
    constructor()
      ensures fresh(options)
      ensures options.tilts && options.tossups && !options.solidOnly && options.others == map[]
    {
      options := new MapOptions();
    }

    /** `get()`: the stored object itself, not a copy. */
    method Get() returns (o: MapOptions)
      ensures o == options
    {
      o := options;
    }

    /** `setProperty(field, value)`: writes the field of the stored object. */
    method SetProperty(field: string, value: bool)
      modifies options
      ensures options.Field(field) == Some(value)
      ensures forall name | name != field :: options.Field(name) == old(options.Field(name))
    {
      options.SetProperty(field, value);
    }
  }

  /** A reference obtained from `get()` before a `setProperty` (as the map
      component keeps one) sees the change: every call hands out the same
      object. */
  method EarlierReferenceSeesChange(service: MapOptionsService, field: string, value: bool) returns (held: MapOptions)
    modifies service.options
    ensures held == service.options
    ensures held.Field(field) == Some(value)
    ensures forall name | name != field :: held.Field(name) == old(service.options.Field(name))
  {
    held := service.Get();
    service.SetProperty(field, value);
    var again := service.Get();
    assert again == held;
  }

  /** `MapComponent.updateMapOptions(field, event)`: the box's value is
      written, and checking `solidOnly` also turns tilts and toss-ups off. */
  method UpdateMapOptions(service: MapOptionsService, field: string, checked: bool)
    modifies service.options
    ensures service.options.Field(field) == Some(checked)
    ensures field == "solidOnly" && checked ==>
              !service.options.tilts && !service.options.tossups
              && forall name | name !in {"solidOnly", "tilts", "tossups"} ::
                   service.options.Field(name) == old(service.options.Field(name))
    ensures !(field == "solidOnly" && checked) ==>
              forall name | name != field :: service.options.Field(name) == old(service.options.Field(name))
  {
    service.SetProperty(field, checked);
    if field == "solidOnly" && checked {
      service.SetProperty("tilts", false);
      service.SetProperty("tossups", false);
    }
  }

  /** The colour the map uses for a rating (`getColor` without solid-only). */
  function ColorOf(r: StateRating, colors: MapColors): (c: string)
    ensures c in Palette(colors)
  {
    match r
    case SolidD => colors.solidD
    case LikelyD => colors.likelyD
    case LeanD => colors.leanD
    case TiltD => colors.tiltD
    case SolidR => colors.solidR
    case LikelyR => colors.likelyR
    case LeanR => colors.leanR
    case TiltR => colors.tiltR
    case TossUp => colors.tossup
  }

  /** The colour in solid-only mode: the solid colour of the leading party,
      the toss-up colour on a tie. */
  function SolidOnlyColor(margin: real, colors: MapColors): (c: string)
    ensures margin > 0.0 ==> c == ColorOf(SolidD, colors)
    ensures margin < 0.0 ==> c == ColorOf(SolidR, colors)
    ensures margin == 0.0 ==> c == ColorOf(TossUp, colors)
  {
    if margin > 0.0 then colors.solidD
    else if margin < 0.0 then colors.solidR
    else colors.tossup
  }

  /** The nine colours from safest Republican to safest Democratic. */
  function Palette(c: MapColors): (p: seq<string>)
    ensures |p| == 9
  {
    [c.solidR, c.likelyR, c.leanR, c.tiltR, c.tossup, c.tiltD, c.leanD, c.likelyD, c.solidD]
  }

  /** Nine distinct colours. */
  predicate DistinctColors(c: MapColors) {
    forall i, j | 0 <= i < j < 9 :: Palette(c)[i] != Palette(c)[j]
  }

  /** A rating's colour sits at the rating's rank in the palette. */
  lemma ColorAtRank(r: StateRating, colors: MapColors)
    ensures ColorOf(r, colors) == Palette(colors)[Rank(r)]
  {
  }

  /** With distinct colours, the colour tells the rating. */
  lemma ColorOfInjective(a: StateRating, b: StateRating, colors: MapColors)
    requires DistinctColors(colors) && ColorOf(a, colors) == ColorOf(b, colors)
    ensures a == b
  {
    ColorAtRank(a, colors);
    ColorAtRank(b, colors);
    assert Rank(a) == Rank(b);
    assert Mirror(a) == Mirror(b) by {
      assert Rank(Mirror(a)) == Rank(Mirror(b));
    }
  }

  /** In solid-only mode the colour can disagree with the rating: any
      Democratic lead short of the solid threshold is painted solid. */
  lemma SolidOnlyDisagreesWithRating(margin: real, m: RatingMargins, tilts: bool, tossups: bool, colors: MapColors)
    requires Ordered(m) && DistinctColors(colors) && 0.0 < margin < m.solid
    ensures SolidOnlyColor(margin, colors) != ColorOf(Classify(margin, m, tilts, tossups), colors)
  {
    if SolidOnlyColor(margin, colors) == ColorOf(Classify(margin, m, tilts, tossups), colors) {
      ColorOfInjective(SolidD, Classify(margin, m, tilts, tossups), colors);
    }
  }

  /** One state as the electoral-vote total sees it. */
  datatype Entry = Entry(rating: StateRating, margin: real, votes: int)

  /** The running totals of `getTotalElectoralVotes` after the given
      states: a toss-up adds nothing, any other state adds its votes to the
      Democrat when the Democrat leads and to the Republican otherwise. */
  function TallyOf(base: ElectoralVotes, entries: seq<Entry>): ElectoralVotes {
    if |entries| == 0 then base
    else
      var v := TallyOf(base, entries[..|entries| - 1]);
      var e := entries[|entries| - 1];
      if e.rating == TossUp then v
      else if e.margin > 0.0 then ElectoralVotes(v.democrat + e.votes, v.republican)
      else ElectoralVotes(v.democrat, v.republican + e.votes)
  }

  /** Counting one more state continues from the totals so far. */
  lemma TallyOfSnoc(base: ElectoralVotes, entries: seq<Entry>, e: Entry)
    ensures TallyOf(base, entries + [e]) == TallyOf(TallyOf(base, entries), [e])
  {
    assert (entries + [e])[..|entries|] == entries;
    assert [e][..0] == [];
  }

  /** The votes of the states not rated Toss-Up. */
  function Allocated(entries: seq<Entry>): int {
    if |entries| == 0 then 0
    else
      var e := entries[|entries| - 1];
      Allocated(entries[..|entries| - 1]) + if e.rating == TossUp then 0 else e.votes
  }

  /** The votes of the states not rated Toss-Up that the given party leads
      (the Democrat when the margin is positive, the Republican when it is
      negative). */
  function Won(entries: seq<Entry>, party: Party): int {
    if |entries| == 0 then 0
    else
      var e := entries[|entries| - 1];
      var leads := if party == Democrat then e.margin > 0.0 else if party == Republican then e.margin < 0.0 else false;
      Won(entries[..|entries| - 1], party) + if e.rating != TossUp && leads then e.votes else 0
  }

  /** No votes are lost or counted twice: the two totals add up to the base
      votes plus the votes of every state not rated Toss-Up. */
  lemma {:induction false} TallyConserves(base: ElectoralVotes, entries: seq<Entry>)
    ensures TallyOf(base, entries).democrat + TallyOf(base, entries).republican
            == base.democrat + base.republican + Allocated(entries)
  {
    if |entries| > 0 {
      TallyConserves(base, entries[..|entries| - 1]);
    }
  }

  /** When no counted state is tied, each party gets the base plus exactly
      the votes of the counted states it leads. */
  lemma {:induction false} TallyByLeader(base: ElectoralVotes, entries: seq<Entry>)
    requires forall i | 0 <= i < |entries| :: entries[i].rating != TossUp ==> entries[i].margin != 0.0
    ensures TallyOf(base, entries).democrat == base.democrat + Won(entries, Democrat)
    ensures TallyOf(base, entries).republican == base.republican + Won(entries, Republican)
  {
    if |entries| > 0 {
      TallyByLeader(base, entries[..|entries| - 1]);
    }
  }

  /** The cache entries from `base` on are, in order, one per state of
      `states`: a key for that state and the date value `dateString`,
      holding the matching record of `records`. */
  ghost predicate CachedAs(cache: seq<(StateDataKey, StateData)>, base: nat, states: seq<string>, dateString: string,
                           records: seq<StateData>) {
    |cache| == base + |states| && |records| == |states|
    && forall j | 0 <= j < |states| ::
         cache[base + j].0.state == states[j] && cache[base + j].0.dateString == dateString && cache[base + j].1 == records[j]
  }

  /** Taking one more element of a sequence appends that element. */
  lemma TakeOneMore<T>(s: seq<T>, i: nat)
    requires i < |s|
    ensures s[..i + 1] == s[..i] + [s[i]]
  {
  }

  /** Appending one entry to the cache extends what it holds by that entry. */
  lemma CachedAsAppend(before: seq<(StateDataKey, StateData)>, after: seq<(StateDataKey, StateData)>, base: nat,
                       states: seq<string>, dateString: string, records: seq<StateData>)
    requires CachedAs(before, base, states, dateString, records)
    requires before <= after && |after| == |before| + 1 && after[|before|].0.dateString == dateString
    ensures CachedAs(after, base, states + [after[|before|].0.state], dateString, records + [after[|before|].1])
  {
  }

  /** `MapService` over loaded data. The loaders fill `evs` and
      `probabilities`; here they are given to the constructor, together with
      the configuration the config service returns. `stateData` is the
      cache, a `Map` keyed by `StateDataKey` objects, kept as its entries
      in insertion order. */
  class MapService {
    const evs: Json<int>
    const probabilities: Series
    const margins: RatingMargins
    const colors: MapColors
    const evConfig: ElectoralVoteConfig
    const mapOptionsService: MapOptionsService
    var stateData: seq<(StateDataKey, StateData)>

    constructor(evs: Json<int>, probabilities: Series, margins: RatingMargins, colors: MapColors,
                evConfig: ElectoralVoteConfig, mapOptionsService: MapOptionsService)
      ensures this.evs == evs && this.probabilities == probabilities && this.margins == margins
      ensures this.colors == colors && this.evConfig == evConfig && this.mapOptionsService == mapOptionsService
      ensures stateData == []
    {
      this.evs := evs;
      this.probabilities := probabilities;
      this.margins := margins;
      this.colors := colors;
      this.evConfig := evConfig;
      this.mapOptionsService := mapOptionsService;
      stateData := [];
    }

    /** `getStateRating(state, date)`: the ladder applied to the margin of
        the state's probabilities, under the current map options. The margin
        is `2d - 100` for the Democratic value `d` of the latest snapshot,
        and `-100` when there is none. */
    function GetStateRating(state: string, date: DateString, today: DateString): (r: StateRating)
      reads mapOptionsService.options
      requires ValidSeries(probabilities)
      ensures !mapOptionsService.options.tilts ==> r != TiltD && r != TiltR
      ensures LatestFor(probabilities, state, date.date).None? ==>
                r == Classify(-100.0, margins, mapOptionsService.options.tilts, mapOptionsService.options.tossups)
      ensures LatestFor(probabilities, state, date.date).Some? ==>
                var d := StateValue(probabilities, state, LatestFor(probabilities, state, date.date).value);
                r == Classify(2.0 * d - 100.0, margins, mapOptionsService.options.tilts, mapOptionsService.options.tossups)
    {
      MarginAt(probabilities, state, date, today);
      var margin := ProbabilityAt(probabilities, state, date, today).Margin();
      var mapOptions := mapOptionsService.options;
      Classify(margin, margins, mapOptions.tilts, mapOptions.tossups)
    }

    /** `getColor(state, date)`: in solid-only mode, the solid colour of the
        party above 50 (toss-up at exactly 50, solid Republican when the
        state has no snapshot); otherwise the colour of the rating. */
    function GetColor(state: string, date: DateString, today: DateString): (c: string)
      reads mapOptionsService.options
      requires ValidSeries(probabilities)
      ensures !mapOptionsService.options.solidOnly ==> c == ColorOf(GetStateRating(state, date, today), colors)
      ensures mapOptionsService.options.solidOnly && LatestFor(probabilities, state, date.date).None? ==>
                c == colors.solidR
      ensures mapOptionsService.options.solidOnly && LatestFor(probabilities, state, date.date).Some? ==>
                var d := StateValue(probabilities, state, LatestFor(probabilities, state, date.date).value);
                c == if d > 50.0 then colors.solidD else if d < 50.0 then colors.solidR else colors.tossup
    {
      var classification := GetStateRating(state, date, today);
      var margin := ProbabilityAt(probabilities, state, date, today).Margin();
      if mapOptionsService.options.solidOnly then SolidOnlyColor(margin, colors)
      else ColorOf(classification, colors)
    }

    /** `getStateData(state, date)`. The key is a new object, and the cache
        compares keys by identity, so the lookup always misses: the record
        is rebuilt from the queries and one entry is appended. */
    method GetStateData(state: string, date: DateString, today: DateString) returns (data: StateData)
      requires ValidSeries(probabilities)
      modifies this
      ensures |stateData| == |old(stateData)| + 1 && old(stateData) <= stateData
      ensures fresh(stateData[|old(stateData)|].0) && stateData[|old(stateData)|].1 == data
      ensures stateData[|old(stateData)|].0.state == state && stateData[|old(stateData)|].0.dateString == date.GetValue()
      ensures data == RecordOf(state, date, today)
      ensures data.name == state
      ensures data.probabilities == ProbabilityAt(probabilities, state, date, today)
      ensures data.dateString == data.probabilities.asOf
      ensures data.rating == GetStateRating(state, date, today)
      ensures data.color == GetColor(state, date, today)
      ensures data.change == DailyChangeAt(probabilities, state, date, today)
      ensures data.evs == ElectoralVotesOf(evs, state)
    {
      var stateDataKey := new StateDataKey(state, KeyDateString(date));
      if exists i | 0 <= i < |stateData| :: stateData[i].0 == stateDataKey {
        // `stateDataKey` was allocated just now, so no entry holds it.
        assert false;
      }
      var stateProbabilities := ProbabilityAt(probabilities, state, date, today);
      var rating := GetStateRating(state, date, today);
      var color := GetColor(state, date, today);
      var change := DailyChangeAt(probabilities, state, date, today);
      var stateEvs := ElectoralVotesOf(evs, state);
      data := StateData(state, stateProbabilities.asOf, stateEvs, change, stateProbabilities, rating, color);
      stateData := stateData + [(stateDataKey, data)];
    }

    /** The record `getStateData(state, date)` builds from the queries. */
    function RecordOf(state: string, date: DateString, today: DateString): StateData
      reads mapOptionsService.options
      requires ValidSeries(probabilities)
    {
      var p := ProbabilityAt(probabilities, state, date, today);
      StateData(state, p.asOf, ElectoralVotesOf(evs, state), DailyChangeAt(probabilities, state, date, today),
                p, GetStateRating(state, date, today), GetColor(state, date, today))
    }

    /** The records `getStateData` builds for `states`, in order. */
    ghost function RecordsOf(states: seq<string>, date: DateString, today: DateString): (rs: seq<StateData>)
      reads mapOptionsService.options
      requires ValidSeries(probabilities)
      ensures |rs| == |states|
    {
      if |states| == 0 then []
      else RecordsOf(states[..|states| - 1], date, today) + [RecordOf(states[|states| - 1], date, today)]
    }

    /** What `getTotalElectoralVotes` reads about one state: the rating
        and margin of its record, and its configured votes. */
    function EntryOf(state: string, date: DateString, today: DateString): Entry
      reads mapOptionsService.options
      requires ValidSeries(probabilities) && state in evConfig.evStates.values
    {
      Entry(GetStateRating(state, date, today), ProbabilityAt(probabilities, state, date, today).Margin(),
            evConfig.evStates.values[state])
    }

    /** The entries of the configured states, in the order of `evStates`. */
    function Entries(date: DateString, today: DateString): (es: seq<Entry>)
      reads mapOptionsService.options
      requires ValidSeries(probabilities) && evConfig.evStates.Wf()
      ensures |es| == |evConfig.evStates.keys|
    {
      var states := evConfig.evStates.keys;
      seq(|states|, i reads mapOptionsService.options requires 0 <= i < |states| => EntryOf(states[i], date, today))
    }

    /** With thresholds in order, a tied state is a toss-up, so every
        counted state has a leader and `TallyByLeader` applies: the
        Republican total never takes a state nobody leads. */
    lemma EntriesHaveLeaders(date: DateString, today: DateString)
      requires ValidSeries(probabilities) && evConfig.evStates.Wf() && Ordered(margins)
      ensures var es := Entries(date, today);
              forall i | 0 <= i < |es| :: es[i].rating != TossUp ==> es[i].margin != 0.0
    {
    }

    /** One pass of the loop of `getTotalElectoralVotes`: fetches the
        state's record through `getStateData` and, unless it is a toss-up,
        adds the state's votes to the winning party's running total (to the
        Republican one when the Democrat does not lead). */
    method AddStateVotes(state: string, date: DateString, today: DateString, evDem: int, evRep: int)
        returns (dem: int, rep: int)
      requires ValidSeries(probabilities) && state in evConfig.evStates.values
      modifies this
      ensures ElectoralVotes(dem, rep) == TallyOf(ElectoralVotes(evDem, evRep), [EntryOf(state, date, today)])
      ensures |stateData| == |old(stateData)| + 1 && old(stateData) <= stateData
      ensures fresh(stateData[|old(stateData)|].0)
      ensures stateData[|old(stateData)|].0.state == state && stateData[|old(stateData)|].0.dateString == date.GetValue()
      ensures stateData[|old(stateData)|].1 == RecordOf(state, date, today)
    {
      var data := GetStateData(state, date, today);
      dem, rep := evDem, evRep;
      if data.rating != TossUp {
        var winner := data.WinningParty();
        if winner == Democrat {
          dem := dem + evConfig.evStates.values[state];
        } else {
          rep := rep + evConfig.evStates.values[state];
        }
      }
    }

    /** `getTotalElectoralVotes(date)`: the base votes plus, state by state
        in the order of `evStates`, the votes of each state that is not a
        toss-up. Each state's record is fetched through `getStateData`, so
        the cache grows by one entry per state, in order, holding the
        records the queries give under the options at the call. */
    method GetTotalElectoralVotes(date: DateString, today: DateString) returns (votes: ElectoralVotes)
      requires ValidSeries(probabilities) && evConfig.evStates.Wf()
      modifies this
      ensures votes == TallyOf(ElectoralVotes(evConfig.baseEvDem, evConfig.baseEvRep), Entries(date, today))
      ensures |stateData| == |old(stateData)| + |evConfig.evStates.keys| && old(stateData) <= stateData
      ensures CachedAs(stateData, |old(stateData)|, evConfig.evStates.keys, date.GetValue(),
                       old(RecordsOf(evConfig.evStates.keys, date, today)))
    {
      var evStates := evConfig.evStates;
      var evDem := evConfig.baseEvDem;
      var evRep := evConfig.baseEvRep;
      ghost var base := ElectoralVotes(evDem, evRep);
      ghost var es := Entries(date, today);
      ghost var recs: seq<StateData> := [];
      var i := 0;
      while i < |evStates.keys|
        invariant 0 <= i <= |evStates.keys|
        invariant Entries(date, today) == es
        invariant ElectoralVotes(evDem, evRep) == TallyOf(base, es[..i])
        invariant |stateData| == |old(stateData)| + i && old(stateData) <= stateData
        invariant CachedAs(stateData, |old(stateData)|, evStates.keys[..i], date.GetValue(), recs)
        invariant recs == old(RecordsOf(evStates.keys[..i], date, today))
      {
        ghost var before := stateData;
        evDem, evRep := AddStateVotes(evStates.keys[i], date, today, evDem, evRep);
        CachedAsAppend(before, stateData, |old(stateData)|, evStates.keys[..i], date.GetValue(), recs);
        TakeOneMore(evStates.keys, i);
        assert RecordOf(evStates.keys[i], date, today) == old(RecordOf(evStates.keys[i], date, today));
        recs := recs + [stateData[|before|].1];
        TallyOfSnoc(base, es[..i], es[i]);
        TakeOneMore(es, i);
        i := i + 1;
      }
      assert es[..i] == es;
      assert evStates.keys[..i] == evStates.keys;
      votes := ElectoralVotes(evDem, evRep);
    }

    /** `getLatestDateStringForState(state, latest)`: scans the available
        dates newest first and returns the first that lists the state and
        is not after `latest`: the newest qualifying snapshot. */
    method GetLatestDateStringForState(state: string, latest: DateString) returns (r: Option<DateString>)
      requires ValidSeries(probabilities)
      ensures r == LatestDateString(probabilities, state, latest.date)
    {
      var dateStrings := AvailableDateStrings(probabilities);
      ghost var keys := KeysNewestFirst(probabilities);
      var i := 0;
      while i < |dateStrings|
        invariant 0 <= i <= |dateStrings|
        invariant NoneQualifies(probabilities, state, latest.date, keys, i)
      {
        var dateString := dateStrings[i];
        ScanAt(probabilities, state, latest.date, i);
        if IsStateAvailableForDate(probabilities, state, dateString) == Success(true)
           && Le(dateString.date, latest.date) {
          return Some(dateString);
        }
        i := i + 1;
      }
      ScanExhausted(probabilities, state, latest.date);
      return None;
    }
  }
}
