/** The value types of the core library (`projects/core/src/lib`): parties,
    ratings, the probability and state records, the configuration records,
    the map options and the cache key. */
module Models {
  import opened Wrappers
  import opened Calendar
  import opened DateStrings
  import opened Json

  /** `Party`; `NoParty` is the enum's `None`. */
  datatype Party = Democrat | Republican | NoParty

  /** `StateRating`, from safest Democratic to safest Republican. */
  datatype StateRating =
    | SolidD | LikelyD | LeanD | TiltD
    | SolidR | LikelyR | LeanR | TiltR
    | TossUp

  /** The text of a `DailyChange`: `''`, `'None'`, `'No Change'`, or a gain
      for one party by a (positive) number of points, shown as
      `D +x%` / `R +x%`. The digits of `x` (`toFixed(1)`) are not modelled. */
  datatype ChangeText = Blank | NoneText | NoChangeText | DemGain(amount: real) | RepGain(amount: real)

  /** `DailyChange(text = '', advantage?)`. */
  datatype DailyChange = DailyChange(text: ChangeText, advantage: Option<Party>)

  /** `new DailyChange()`, and the literal `{ text: '' }`. */
  const EmptyChange := DailyChange(Blank, None)

  /** `StateProbability`: the Democratic and Republican chances of winning a
      state (in percent) and the date they were published. */
  datatype StateProbability = StateProbability(democrat: real, republican: real, asOf: DateString)
  {
    /** `getMargin()`: positive when the Democrat is ahead. */
    function Margin(): (m: real)
      ensures m > 0.0 <==> democrat > republican
      ensures m == 0.0 <==> democrat == republican
      ensures m < 0.0 <==> democrat < republican
    {
      democrat - republican
    }
  }

  /** `new StateProbability(democrat = 0, republican = 100, asOf = new DateString())`:
      an omitted (or `undefined`) argument takes its default, `today` being
      what `new DateString()` gives; the two values are stored as given, with
      no check that they add up to 100. */
  function NewStateProbability(democrat: Option<real>, republican: Option<real>, asOf: Option<DateString>, today: DateString): (p: StateProbability)
    ensures p.democrat == (if democrat.Some? then democrat.value else 0.0)
    ensures p.republican == (if republican.Some? then republican.value else 100.0)
    ensures p.asOf == if asOf.Some? then asOf.value else today
  {
    StateProbability(democrat.GetOr(0.0), republican.GetOr(100.0), asOf.GetOr(today))
  }

  /** `StateData`: everything the map shows for one state. */
  datatype StateData = StateData(
    name: string,
    dateString: DateString,
    evs: int,
    change: DailyChange,
    probabilities: StateProbability,
    rating: StateRating,
    color: string)
  {
    /** `getWinningParty()`: decided by the probabilities alone. */
    function WinningParty(): (p: Party)
      ensures p == NoParty <==> probabilities.democrat == probabilities.republican
      ensures p == Democrat <==> probabilities.democrat > probabilities.republican
      ensures p == Republican <==> probabilities.democrat < probabilities.republican
    {
      var margin := probabilities.Margin();
      if margin == 0.0 then NoParty
      else if margin > 0.0 then Democrat
      else Republican
    }
  }

  /** `ProbabilitiesJson`: one snapshot as the JSON file stores it; `States`
      may be missing. */
  datatype ProbabilitiesJson = ProbabilitiesJson(PopularVote: real, ElectoralCollege: real, States: Option<Json<real>>)

  /** `Probabilities`: one snapshot of the forecast. The class declares
      `states` as always present, but the services' loaders copy `States`
      without a default, so it may be `undefined`. */
  datatype Probabilities = Probabilities(popularVote: real, electoralCollege: real, states: Option<Json<real>>)

  /** `new Probabilities(popularVote = 0, electoralCollege = 0, states = {})`. */
  function NewProbabilities(popularVote: Option<real>, electoralCollege: Option<real>, states: Option<Json<real>>): (p: Probabilities)
    ensures p.popularVote == popularVote.GetOr(0.0)
    ensures p.electoralCollege == electoralCollege.GetOr(0.0)
    ensures p.states.Some?
    ensures p.states.value == if states.Some? then states.value else Empty()
  {
    Probabilities(popularVote.GetOr(0.0), electoralCollege.GetOr(0.0), Some(states.GetOr(Empty())))
  }

  /** `Probabilities.fromJson(json)`: renames the fields; a missing `States`
      becomes `{}` through the constructor's default. */
  function FromJson(json: ProbabilitiesJson): (p: Probabilities)
    ensures p.popularVote == json.PopularVote && p.electoralCollege == json.ElectoralCollege
    ensures json.States.Some? ==> p.states == json.States
    ensures json.States.None? ==> p.states == Some(Empty())
  {
    NewProbabilities(Some(json.PopularVote), Some(json.ElectoralCollege), json.States)
  }

  /** The object the services' loaders build for one snapshot
      (`{ electoralCollege, popularVote, states }`): the same renaming as
      `fromJson`, but a missing `States` stays `undefined`. */
  function Loaded(json: ProbabilitiesJson): (p: Probabilities)
    ensures p.states == json.States
    ensures json.States.Some? ==> p == FromJson(json)
  {
    Probabilities(json.PopularVote, json.ElectoralCollege, json.States)
  }

  /** `fromJson` is injective up to a missing `States`, which reads as `{}`:
      a missing `States` and an empty one give the same object. */
  lemma FromJsonInjective(a: ProbabilitiesJson, b: ProbabilitiesJson)
    requires FromJson(a) == FromJson(b)
    ensures a.PopularVote == b.PopularVote && a.ElectoralCollege == b.ElectoralCollege
    ensures a.States.GetOr(Empty()) == b.States.GetOr(Empty())
  {
  }

  /** The loaders agree with `fromJson` exactly when `States` is present. */
  lemma LoadedMatchesFromJson(json: ProbabilitiesJson)
    ensures Loaded(json) == FromJson(json) <==> json.States.Some?
  {
    if json.States.None? {
      assert Loaded(json).states == None;
      assert FromJson(json).states == Some(Empty());
    }
  }

  /** `RatingOptions(tilts = true, tossups = true)`. */
  datatype RatingOptions = RatingOptions(tilts: bool, tossups: bool)

  /** `RatingMargins`: the thresholds of the rating ladder, in points of
      margin. */
  datatype RatingMargins = RatingMargins(solid: real, likely: real, lean: real, tilt: real)

  /** `MapColors`: one colour per rating. */
  datatype MapColors = MapColors(
    solidD: string, likelyD: string, leanD: string, tiltD: string,
    solidR: string, likelyR: string, leanR: string, tiltR: string,
    tossup: string)

  /** `ElectoralVoteConfig`: votes already allocated to each party, and the
      states whose votes the forecast allocates. */
  datatype ElectoralVoteConfig = ElectoralVoteConfig(baseEvDem: int, baseEvRep: int, evStates: Json<int>)

  /** `ElectoralVotes(democrat = 0, republican = 0)`. */
  datatype ElectoralVotes = ElectoralVotes(democrat: int, republican: int)

  /** `MapOptions`. The object is shared (the options service hands out the
      one instance) and `setProperty` writes its fields by name, so it is a
      class. A name other than the three fields adds a property of that
      name; those are kept in `others`. */
  class MapOptions {
    var tilts: bool
    var tossups: bool
    var solidOnly: bool
    var others: map<string, bool>

    /** `new MapOptions(tilts = true, tossups = true, solidOnly = false)`. */
    constructor(tilts: bool := true, tossups: bool := true, solidOnly: bool := false)
      ensures this.tilts == tilts && this.tossups == tossups && this.solidOnly == solidOnly
      ensures others == map[]
    {
      this.tilts := tilts;
      this.tossups := tossups;
      this.solidOnly := solidOnly;
      others := map[];
    }

    /** The property named `name`, `undefined` when there is none. */
    function Field(name: string): Option<bool>
      reads this
    {
      if name == "tilts" then Some(tilts)
      else if name == "tossups" then Some(tossups)
      else if name == "solidOnly" then Some(solidOnly)
      else if name in others then Some(others[name])
      else None
    }

    /** `toRatingOptions()`: a new value carrying `tilts` and `tossups`. */
    function ToRatingOptions(): (r: RatingOptions)
      reads this
      ensures r.tilts == Field("tilts").value && r.tossups == Field("tossups").value
    {
      RatingOptions(tilts, tossups)
    }

    /** `setProperty(options, field, value)`: the named property becomes
        `value` and every other property keeps its value. */
    method SetProperty(field: string, value: bool)
      modifies this
      ensures Field(field) == Some(value)
      ensures forall name | name != field :: Field(name) == old(Field(name))
      ensures tilts == (if field == "tilts" then value else old(tilts))
      ensures tossups == (if field == "tossups" then value else old(tossups))
      ensures solidOnly == (if field == "solidOnly" then value else old(solidOnly))
      ensures others == if field in {"tilts", "tossups", "solidOnly"} then old(others) else old(others)[field := value]
    {
      if field == "tilts" {
        tilts := value;
      } else if field == "tossups" {
        tossups := value;
      } else if field == "solidOnly" {
        solidOnly := value;
      } else {
        others := others[field := value];
      }
    }
  }

  /** The date argument of `new StateDataKey(state, dateString)`. */
  datatype KeyDateArg = KeyText(text: string) | KeyDateString(dateString: DateString)

  /** `StateDataKey`: the key of the state-data cache. The cache is a `Map`,
      which compares keys by identity, so a key is an object. */
  class StateDataKey {
    const state: string
    const dateString: string

    /** A string date is stored as given; a `DateString` as its `getValue()`. */
    constructor(state: string, dateString: KeyDateArg)
      ensures this.state == state
      ensures this.dateString == match dateString
                                 case KeyText(s) => s
                                 case KeyDateString(d) => d.GetValue()
    {
      this.state := state;
      this.dateString := match dateString
                         case KeyText(s) => s
                         case KeyDateString(d) => d.GetValue();
    }
  }

  /** A key built from a `DateString` and one built from its value hold the
      same fields, yet they are two distinct objects. */
  method TwoKeysForOneDate(state: string, d: DateString) returns (a: StateDataKey, b: StateDataKey)
    ensures a.state == b.state && a.dateString == b.dateString == d.GetValue()
    ensures a != b
  {
    a := new StateDataKey(state, KeyDateString(d));
    b := new StateDataKey(state, KeyText(d.GetValue()));
  }
}
